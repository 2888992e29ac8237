# replay_testing, modelled in Dafny

`replay_testing` is a three-phase test harness for ROS 2 systems. In the fixtures phase it
checks the declared input recordings and writes a copy of each recording without the topics
the system under test will produce. In the run phase it replays each filtered recording once
per run parameter set, while a recorder captures the system's output. In the analyze phase it
runs the user's analysis tests on every recorded run, writes a JUnit report and gives one exit
code.

This project models the sequential logic of that harness and proves what it promises:

- the runner's three phases (`ReplayRunner`);
- the topic filter (`Filter`);
- the JUnit report (`JUnit`);
- the fixture and its cleanup of run folders (`ReplayFixtures`);
- the `.mcap` search (`Utils`);
- the two phase-registration decorators (`FixturesDecorator`, `RunDecorator`);
- the three fixture providers: a local copy (`McapWrapper`), S3 (`S3`) and Nexus with a checksum-validated cache (`Nexus`).

Shared modules:

- `Wrappers`: `Option` and `Result`.
- `Strings`: Python's `split`, `join`, `strip`, `find` and `str(n)`.
- `Paths`: `os.path` and `PurePosixPath` as string rules.
- `FileTree`: a directory tree with ordered listings and the `os`/`shutil` operations the harness uses.
- `OrderedDicts`: insertion-ordered dictionaries.
- `Models`: the phase tags, run parameters, recordings and test results.
- `TestClasses`: the user's test classes, which the decorators change in place.

The file system is a value (`FileTree.Node`) that each operation takes and returns. Some things are outside the model and are passed in as parameters instead:

- functions: the launch service, reading and writing a recording, running the analysis tests, the Nexus search request, curl, boto3's `head_object` and `download_file`, sidecar JSON;
- values: the environment, the run's UUID, the host name and the time stamp.

In these places the model follows the code as written:

- Cleanup of a run folder keeps the first `.mcap` file found and deletes any others with the folder. It does not reject a folder holding several.
- A failing fixture, topic check or run stops the phase at once. The fixtures and runs completed before it stay in place; nothing isolates one fixture from another.
- The JUnit report has one suite per test result and no paths of recordings.
- Two input recordings with the same stem make `os.makedirs` fail on the second. The model reports this as a `FileError`.
- The first class carrying a phase tag, in `inspect.getmembers` order, is the phase's class.
- When an element of `output_topics` is not a string, the fixtures decorator's message names `input_topics`. The model keeps that message as written.

## Model

| member | source | states |
|---|---|---|
| Filter.Exclusion | replay_testing/filter.py:27 | a topic is excluded exactly when `output_topics` lists it |
| Filter.KeptTopics | replay_testing/filter.py:42-44 | the kept topics are exactly the declared topics whose name is not excluded, and there are no more of them than declared |
| Filter.KeptMessages | replay_testing/filter.py:47-50 | the kept messages are exactly the input messages on a topic that is not excluded, each with its data and timestamp unchanged |
| Filter.BagWriter.constructor | replay_testing/filter.py:35-39 | a newly opened writer holds no topics and no messages |
| Filter.BagWriter.CreateTopic | replay_testing/filter.py:44 | the writer gains that one topic at the end; its messages are untouched |
| Filter.BagWriter.Write | replay_testing/filter.py:50 | the writer gains one message with that topic, data and timestamp at the end; its topics are untouched |
| Filter.FilterMcap | replay_testing/filter.py:19-50 | the written recording is the input with the excluded topics and their messages removed |
| Filter.KeptTopicsAppend | replay_testing/filter.py:42-44 | filtering topics distributes over concatenation, so the kept topics keep their input order |
| Filter.KeptMessagesAppend | replay_testing/filter.py:47-50 | filtering messages distributes over concatenation, so the kept messages keep their relative order |
| Filter.FilteredExcludes | replay_testing/filter.py:42-50 | no excluded topic and no message on one reaches the output; every other topic and message does |
| Filter.AbsentExclusionKeepsAll | replay_testing/filter.py:42-50 | excluding topics the recording does not declare keeps every declared topic, and also every message when no message is on them |
| Filter.DuplicatesIrrelevant | replay_testing/filter.py:27 | two `output_topics` lists naming the same topics, in any order and with any repetition, filter alike |
| Filter.FilterIdempotent | replay_testing/filter.py:42-50 | filtering the output again with the same exclusion changes nothing |
| JUnit.BuildSuite | replay_testing/junit_to_xml.py:33-60 | the suite built step by step is the suite element of the result at that index |
| JUnit.ResultsToXml | replay_testing/junit_to_xml.py:14-67 | the tree built with the running totals is the report of the results |
| JUnit.SuiteAttrs | replay_testing/junit_to_xml.py:34-40 | a suite is named `<name>_suite_<i+1>` and carries `str` of its tests, failures and errors, the host name, the time stamp and time "0" |
| JUnit.RootAttrs | replay_testing/junit_to_xml.py:19-20 | the root carries the caller's name and `str` of the three totals over all results |
| JUnit.ReportSuites | replay_testing/junit_to_xml.py:19-37 | the root is `testsuites` with one `testsuite` per result in order, each named by its position from 1 and reporting its result's counts |
| JUnit.SumSuiteCounts | replay_testing/junit_to_xml.py:42-44 | summed over the suites, each count read back from the report is the total over the results |
| JUnit.ReportTotals | replay_testing/junit_to_xml.py:63-65 | the root's totals equal the sums of its suites' counts |
| JUnit.SuiteCases | replay_testing/junit_to_xml.py:46-60 | a suite holds one `testcase` per failure, then one per error, each with a `failure` or `error` child holding the traceback; a successful result gives none |
| JUnit.AllTimesZero | replay_testing/junit_to_xml.py:40-58 | every suite and every test case has time "0" |
| JUnit.ExampleTotals | replay_testing/junit_to_xml.py:14-67 | under the default name, results (5,1,1) and (3,0,0) give two suites and the totals 8, 1 and 1 |
| Utils.FindMcapFiles | replay_testing/utils.py:4-11 | the result is the walk's `.mcap` names joined to the directory of their step, step after step |
| Utils.CollectMcapFiles | replay_testing/utils.py:7-10 | the nested loops collect the matches of every walk step in order |
| Utils.MatchesMembers | replay_testing/utils.py:8-10 | one step gives exactly `join(root, f)` for the names `f` of that step ending with ".mcap" |
| Utils.McapPathsMembers | replay_testing/utils.py:7-10 | a path is returned exactly when some walk step lists a name ending with ".mcap" that joins onto its directory to give that path |
| Utils.ResultsAreMcap | replay_testing/utils.py:9-10 | every returned path ends with ".mcap", tested case-sensitively |
| Utils.WalkFinds | replay_testing/utils.py:7 | the walk lists every file of the tree in the step for the directory holding it |
| Utils.FindsEveryMcap | replay_testing/utils.py:7-10 | every file anywhere below the top whose name ends with ".mcap" is returned, joined onto the directory it was found in |
| Utils.WalkFileNames | replay_testing/utils.py:7-8 | the walk lists only names of files that are in the tree |
| Utils.NoMcapNoResult | replay_testing/utils.py:4-11 | a tree with no file name ending in ".mcap", an empty one included, yields nothing |
| Utils.MissingDirNoResult | replay_testing/utils.py:7 | a missing directory yields nothing |
| ReplayFixtures.ReplayFixture.constructor | replay_testing/replay_fixture.py:31-35 | the new fixture keeps its base folder and input, has no runs, and its filtered copy is `<base>/filtered_fixture.mcap` |
| ReplayFixtures.ReplayFixture.CleanupRunFixtures | replay_testing/replay_fixture.py:37-48 | the file system, the run list and the error are those of cleanup over the old runs; the paths of the base, the input and the filtered copy are unchanged |
| ReplayFixtures.RelocateRun | replay_testing/replay_fixture.py:39-46 | one loop turn gives the file system and new path, or the error, of relocating that run folder |
| ReplayFixtures.CleanupBy | replay_testing/replay_fixture.py:38-48 | cleanup keeps the number of runs |
| ReplayFixtures.NoRecordingStops | replay_testing/replay_fixture.py:41-43 | a run folder without an `.mcap` file stops cleanup with `ValueError` before anything changes |
| ReplayFixtures.RelocateMoves | replay_testing/replay_fixture.py:44-46 | when relocation succeeds, the folder held a recording, the first one found is at the folder's parent joined with its base name, and the folder and all below it are gone |
| ReplayFixtures.FirstRecordingName | replay_testing/replay_fixture.py:44 | the recording moved has a base name that is one path part without a trailing '/' |
| ReplayFixtures.NewPathApart | replay_testing/replay_fixture.py:45-46 | the new path lies beside the folder, not inside it, so `rmtree` does not delete the moved recording |
| ReplayFixtures.NewPathParts | replay_testing/replay_fixture.py:45 | the new path's parts are those of the folder's parent, with the recording's name as the last part |
| ReplayFixtures.CleanupAppend | replay_testing/replay_fixture.py:38-48 | cleanup is not atomic: on `a + b` it cleans `a`, then `b` only if `a` succeeded; an error in `b` leaves `a` relocated |
| ReplayFixtures.CleanupPrefix | replay_testing/replay_fixture.py:38-48 | cleanup relocates a prefix of the runs and leaves the rest as they were; it gets through all of them exactly when no error stops it |
| ReplayRunner.Phases | replay_testing/replay_runner.py:73-74 | the tags read are the classes' tags, one per class, in order |
| ReplayRunner.FirstTagged | replay_testing/replay_runner.py:71-77 | the position found holds the tag and no earlier class holds it; -1 exactly when no class does |
| ReplayRunner.Runner.GetStageClass | replay_testing/replay_runner.py:71-77 | the loop returns the first class tagged with the stage, or `ValueError` when there is none |
| ReplayRunner.PlayerCommand | replay_testing/replay_runner.py:83-94 | the command is `ros2 bag play <filtered> --clock 10000`, with `--qos-profile-overrides-path <yaml>` appended exactly when the run class has a QoS file |
| ReplayRunner.RunLaunchDescription | replay_testing/replay_runner.py:96-133 | four entries in order: the recorder writing into the run path's parent under its stem, the user's description, the player named `ros2_bag_player`, and an exit handler on the player that emits Shutdown |
| ReplayRunner.CreateRunLaunchDescription | replay_testing/replay_runner.py:79-133 | the command extended in place gives that launch description |
| ReplayRunner.Present | replay_testing/replay_runner.py:159-162 | a name is collected exactly when the recording has it and it is a declared input topic |
| ReplayRunner.PresentTopics | replay_testing/replay_runner.py:159-162 | the topic loop collects the recording's topic names that are declared inputs, in recording order |
| ReplayRunner.MismatchIffMissing | replay_testing/replay_runner.py:164-172 | the set comparison fails exactly when some declared input topic is absent from the recording |
| ReplayRunner.PrepareOneChecks | replay_testing/replay_runner.py:146-172 | a fixture is made only for an existing `.mcap` recording that holds every declared input topic |
| ReplayRunner.InputTopicsRule | replay_testing/replay_runner.py:155-172 | for a readable `.mcap` recording the topic assertion is raised exactly when a declared input topic is missing; extra topics and the output topics play no part |
| ReplayRunner.PrepareFixture | replay_testing/replay_runner.py:147-190 | one turn of the fixtures loop gives that step's file system and fixture, or its error |
| ReplayRunner.PrepareFixtures | replay_testing/replay_runner.py:146-190 | the loop gives the file system, the new fixtures and the error of the fixtures phase; the new fixture objects are distinct and fresh |
| ReplayRunner.PrepareAllMakes | replay_testing/replay_runner.py:146-190 | the fixtures made are one per recording of a prefix (all recordings when there is no error), in order, each at `<results>/<stem>` with its input and no runs |
| ReplayRunner.FixturesOfClass | replay_testing/replay_runner.py:139-190 | after the results directory is made, the fixtures phase runs on the class's attributes, with the errors for a missing or `None` fixture list; `MalformedTopics` is the model's stand-in for classes whose topics are not lists of strings, which `@fixtures` rejects |
| ReplayRunner.DecoratedTopicsReachLoop | replay_testing/replay_runner.py:146-172 | for a class `@fixtures` accepted, both topic attributes are lists of strings and a non-empty fixture list goes straight to the recording loop over them |
| ReplayRunner.FixturesPhaseMakes | replay_testing/replay_runner.py:143-190 | with no error, the phase made one fixture per declared recording, in order |
| ReplayRunner.Runner.constructor | replay_testing/replay_runner.py:41-55 | a new runner has no fixtures, and its results go under `test_results/replay_testing/<uuid>` when `CI` is set, under `/tmp/replay_testing/<uuid>` otherwise |
| ReplayRunner.Runner.Fixtures | replay_testing/replay_runner.py:135-194 | the runner's fixtures gain those the phase made, after the old ones, and the phase's error is returned; a missing fixtures class changes nothing |
| ReplayRunner.LaunchesRecords | replay_testing/replay_runner.py:209-227 | runs are recorded for a prefix of the parameter sets, in order, each at `<base>/runs/<name>`: for every set when no error occurs, and for at least one when an error stops the loop, since a run is recorded before its description is asked for |
| ReplayRunner.LaunchRuns | replay_testing/replay_runner.py:209-227 | the parameter loop on a fixture with no runs gives the file system, the runs and the error of that loop, and keeps the fixture's paths |
| ReplayRunner.RunOneShape | replay_testing/replay_runner.py:202-231 | a fixture keeps its paths; with no error it has exactly one run per parameter set |
| ReplayRunner.RunFixture | replay_testing/replay_runner.py:202-231 | one fixture's run turn does the two checks, the parameter loop and then cleanup |
| ReplayRunner.RunFixtures | replay_testing/replay_runner.py:202-233 | the loop over the fixtures gives the file system, every fixture's fields and the error of the run phase |
| ReplayRunner.RunAllShape | replay_testing/replay_runner.py:202-233 | N fixtures and M parameter sets give N times M runs when no error occurs, and every fixture keeps its paths |
| ReplayRunner.EmptyParametersRule | replay_testing/replay_runner.py:202-204 | an empty parameter list is an error only once a fixture is reached: no fixtures means no error; otherwise `ValueError` with the fixtures unchanged |
| ReplayRunner.RunTwiceRejected | replay_testing/replay_runner.py:206-207 | a second run phase over the fixtures a successful one left is rejected at the first fixture with "Run fixtures already exist" |
| ReplayRunner.Runner.Run | replay_testing/replay_runner.py:196-233 | the fixtures' fields, the file system and the error are those of the run phase over the old fields; a missing run class changes nothing |
| ReplayRunner.RunTests | replay_testing/replay_runner.py:242-261 | one record per run of the fixture, in order, holding the test result and the run and filtered paths |
| ReplayRunner.CollectLastWins | replay_testing/replay_runner.py:237-261 | each input path has one entry, holding the records of the last fixture with that input path; a repeated input path replaces the earlier records |
| ReplayRunner.CollectSucceeds | replay_testing/replay_runner.py:280-286 | when every fixture's runs passed, the results pass |
| ReplayRunner.NoRunsSucceed | replay_testing/replay_runner.py:280-286 | with no runs at all the results pass |
| ReplayRunner.WasSuccessfulAll | replay_testing/replay_runner.py:280-286 | the nested loop answers true exactly when every stored record `wasSuccessful()` |
| ReplayRunner.Runner.CollectResults | replay_testing/replay_runner.py:237-261 | the results dictionary is that of the fixtures and the analysis class, whose lookup fails only once a fixture is reached |
| ReplayRunner.Runner.Analyze | replay_testing/replay_runner.py:235-278 | it fails exactly when collection fails; otherwise it holds those results, the report path `<results>/results.xml`, the report of the flattened results, and an exit code of 0 or 1 that is 0 exactly when every record passed |
| RunDecorator.WrapperForwards | replay_testing/decorators/run.py:21-27 | calling the decorated method with parameters passes them on exactly when the user's function has two signature entries and calls it with `self` alone otherwise, failing when those arguments do not bind; this holds however often the class was decorated |
| RunDecorator.SelfOnlyUnlessTwo | replay_testing/decorators/run.py:24-27 | the wrapper forwards the parameters to a function with two signature entries and calls any other with `self` alone |
| RunDecorator.DefaultsGetSelfOnly | replay_testing/decorators/run.py:24-27 | a signature with defaults or `*args`, such as `(self, a=None, b=None)` or `(self, *args, **kwargs)`, is called with `self` alone, and the call succeeds |
| RunDecorator.TwoEntriesGetParams | replay_testing/decorators/run.py:24-25 | `(self, parameters=None)` receives the parameters; a two-entry signature with one positional parameter fails, since they are passed positionally |
| RunDecorator.WrapperNeedsParameters | replay_testing/decorators/run.py:21 | the wrapper cannot be called without the parameters argument |
| RunDecorator.Run.constructor | replay_testing/decorators/run.py:9-11 | a bare decorator holds no parameters |
| RunDecorator.Run.Parameterize | replay_testing/decorators/run.py:36-39 | `parameterize` holds the list unchanged |
| RunDecorator.Run.Default | replay_testing/decorators/run.py:41-43 | `default` holds one parameter set named "default" with no parameters |
| RunDecorator.Run.Apply | replay_testing/decorators/run.py:13-34 | a class without `generate_launch_description` gets `TypeError` and is unchanged; otherwise the same class is returned with that method wrapped, tagged RUN, and `parameters` replaced only when the decorator has some |
| FixturesDecorator.Validate | replay_testing/decorators/fixtures.py:27-47 | a class passes exactly when both topic attributes are lists of strings; otherwise the first failing check gives a `TypeError` |
| FixturesDecorator.AsWrittenAgrees | replay_testing/decorators/fixtures.py:27-47 | the checks as written accept and reject the same classes as the intended ones; only the exception of a failed type check differs |
| FixturesDecorator.AsWrittenRaisesAttributeError | replay_testing/decorators/fixtures.py:30-31 | for `input_topics` given as a string, the code as written raises the name-mangling `AttributeError` where the `TypeError` is meant |
| FixturesDecorator.InputCheckedFirst | replay_testing/decorators/fixtures.py:27-39 | while `input_topics` fails its checks, `output_topics` does not affect the outcome |
| FixturesDecorator.MissingOutputTopics | replay_testing/decorators/fixtures.py:38-39 | valid input topics and no `output_topics` give the `TypeError` for the missing attribute |
| FixturesDecorator.EmptyListsAccepted | replay_testing/decorators/fixtures.py:33-44 | empty topic lists pass |
| FixturesDecorator.Fixtures.constructor | replay_testing/decorators/fixtures.py:22-24 | a bare decorator holds no fixture list |
| FixturesDecorator.Fixtures.Parameterize | replay_testing/decorators/fixtures.py:53-55 | `parameterize` holds the list given |
| FixturesDecorator.Fixtures.Apply | replay_testing/decorators/fixtures.py:26-51 | a class failing a check is rejected with the corrected check's `TypeError` (as written, the four type checks raise `AttributeError`; see Findings) and left unchanged; otherwise the same class is returned with the decorator's fixture list, tagged FIXTURES, its other attributes unchanged |
| McapWrapper.CopyTarget | replay_testing/fixture_wrappers/mcap.py:34 | the target is the destination, a '/', and a name without '/' that is the source's base name and ends the source path; a source without '/' gives the whole string |
| McapWrapper.Download | replay_testing/fixture_wrappers/mcap.py:24-36 | it succeeds exactly when the copy does; the returned path is the copy target and the file system is the copy's; a failing copy changes nothing; with no directory at the target, the target holds the source's contents |
| McapWrapper.DirectoryAtTargetCopiesInside | replay_testing/fixture_wrappers/mcap.py:34-36 | when a directory stands at the target, the file is copied into it, one level below the returned path |
| S3.ArgumentsOverrideEnvironment | replay_testing/remote_fixtures/s3.py:55-60 | a truthy argument is kept whatever the environment holds |
| S3.EnvironmentFallback | replay_testing/remote_fixtures/s3.py:55-60 | a missing or empty argument gives way to its environment variable; without one the bucket is "", the region "us-east-1", the rest `None` |
| S3.SessionKwargs | replay_testing/remote_fixtures/s3.py:64-71 | the session gets the key ID and secret exactly when both are truthy, the token only then and when truthy itself, and nothing else |
| S3.ClientKwargs | replay_testing/remote_fixtures/s3.py:75-80 | the client gets service "s3", plus the region and the endpoint exactly when each is truthy, and nothing else |
| S3.HeadFailure | replay_testing/remote_fixtures/s3.py:114-155 | every failure of `head_object` surfaces as a `RuntimeError`, and missing credentials as the message on how to configure them |
| S3.FetchFailure | replay_testing/remote_fixtures/s3.py:125-155 | every failure of `download_file` surfaces as a `RuntimeError`, and missing credentials as the message on how to configure them |
| S3.DownloadSpec | replay_testing/remote_fixtures/s3.py:83-155 | on success the returned path is `join(destination, basename(key))` and a file exists there |
| S3.Download | replay_testing/remote_fixtures/s3.py:83-155 | the method's file system and result are those of `download`; on success the path is the local path and it exists |
| S3.EmptyBasenameRefused | replay_testing/remote_fixtures/s3.py:96-98 | a key that is empty or ends in '/' has no base name and is refused with a `TypeError` before S3 or the file system is touched |
| S3.DownloadOutcome | replay_testing/remote_fixtures/s3.py:96-155 | success exactly when the key has a base name, the folder can be made, the metadata request succeeds and the downloaded file exists, whatever the suffix; `TypeError`, the folder's own error, or a `RuntimeError` in the other cases |
| S3.NotFoundRewrapped | replay_testing/remote_fixtures/s3.py:119-120 | a 404 on the metadata request is reported as "Failed to download fixture from S3: S3 object not found: s3://bucket/key" |
| S3.MissingCredentials | replay_testing/remote_fixtures/s3.py:143-147 | missing credentials at either call give the one message on how to configure them |
| S3.LocalPathRule | replay_testing/remote_fixtures/s3.py:104 | the local path starts with the destination folder and its base name is the key's base name |
| Nexus.HeaderOf | replay_testing/fixtures/nexus.py:65-68 | a piece gives a header exactly when its stripped text contains ':', and the key then contains no ':' |
| Nexus.HeaderOfPair | replay_testing/fixtures/nexus.py:67-68 | a piece `key:value` with a key without ':' and nothing to strip gives that pair back |
| Nexus.HeaderPairs | replay_testing/fixtures/nexus.py:64-68 | no header key contains ':' |
| Nexus.ParseExtraHeaders | replay_testing/fixtures/nexus.py:62-68 | the header loop builds the dictionary of the pieces' pairs assigned in order |
| Nexus.LastHeaderWins | replay_testing/fixtures/nexus.py:62-68 | each header key occurs once and holds the value of the last piece naming it; a key no piece names is absent |
| Nexus.CurlHeaderArgs | replay_testing/fixtures/nexus.py:209-213 | the header arguments for curl come in pairs, `-H` followed by a non-empty stripped piece |
| Nexus.CurlGetsEveryHeader | replay_testing/fixtures/nexus.py:209-213 | every piece that becomes a search header reaches curl too, as its stripped text |
| Nexus.CurlGetsColonlessPiece | replay_testing/fixtures/nexus.py:209-213 | a non-empty piece without ':' is sent to curl although the search request leaves it out |
| Nexus.BuildCurlCommand | replay_testing/fixtures/nexus.py:196-213 | the command extended in place is the curl command, writing to the destination and fetching `<server>/repository/<repo>/<path>` |
| Nexus.ChecksumOf | replay_testing/fixtures/nexus.py:93-102 | the checksum is `sha256:` of a truthy sha256, else `sha1:` of a truthy sha1, else `md5:` of a truthy md5, and `None` exactly when none is truthy |
| Nexus.SearchPath | replay_testing/fixtures/nexus.py:54 | the search path starts with '/', ends with the Nexus path, and is one character longer exactly when the Nexus path lacks the '/' |
| Nexus.SearchPathIdempotent | replay_testing/fixtures/nexus.py:54 | adding the leading '/' again changes nothing |
| Nexus.FirstMatch | replay_testing/fixtures/nexus.py:87-89 | the item found has the path, with or without a leading '/', and no earlier item has; -1 exactly when none has |
| Nexus.MatchMetadata | replay_testing/fixtures/nexus.py:81-105 | metadata is found exactly when some item matches, and it is the ID and checksum of the first match |
| Nexus.FindAsset | replay_testing/fixtures/nexus.py:87-105 | the search loop returns the metadata of the first matching item, or `None` |
| Nexus.GetAssetMetadata | replay_testing/fixtures/nexus.py:44-109 | the metadata is that of the search response's items, or `None` when the request fails |
| Nexus.SidecarBeside | replay_testing/fixtures/nexus.py:120 | the sidecar has the cached file's parent and is named after it with ".meta" added |
| Nexus.CacheBelowCacheDir | replay_testing/fixtures/nexus.py:117-118 | a relative repository name puts the cached file below `/tmp/replay_testing/.cache` |
| Nexus.EmptyRepositoryEscapesCache | replay_testing/fixtures/nexus.py:117-118 | with the repository unset the cache key is rooted and the cached file is `/<nexus path>` |
| Nexus.GetCachePaths | replay_testing/fixtures/nexus.py:111-121 | the two paths are the cached file and its sidecar; the directory is made first, and its error, if any, leaves the file system as it was |
| Nexus.CachePathsApart | replay_testing/fixtures/nexus.py:117-120 | the cached file and its sidecar are different files, neither inside the other |
| Nexus.IsCacheValid | replay_testing/fixtures/nexus.py:123-165 | the cache is valid exactly when the file exists, the remote metadata and checksum are present, the sidecar reads, the checksums agree, and the IDs agree when both are present |
| Nexus.MissingIdNotCompared | replay_testing/fixtures/nexus.py:154-159 | an ID missing on either side is not compared; the checksums alone decide |
| Nexus.VerifyMcap | replay_testing/fixtures/nexus.py:181-186 | true exactly when the file begins with the 8-byte MCAP magic; raises exactly when there is no file at the path |
| Nexus.DownloadVerdict | replay_testing/fixtures/nexus.py:216-230 | the HTTP code is the stripped output, and the download succeeds exactly on exit code 0 with a code starting with '2' |
| Nexus.DownloadToPath | replay_testing/fixtures/nexus.py:188-230 | the file system is curl's, and the verdict is that of curl's exit code and output |
| Nexus.LocalPathRule | replay_testing/fixtures/nexus.py:249-250 | the local file is the destination folder with the last '/'-piece of the Nexus path below it |
| Nexus.WriteSidecar | replay_testing/fixtures/nexus.py:167-179 | the sidecar holds the encoded metadata, or the file system is unchanged when the write fails |
| Nexus.CopyOut | replay_testing/fixtures/nexus.py:263-291 | a successful copy returns the local path; a failed one leaves the file system as it was |
| Nexus.Fetch | replay_testing/fixtures/nexus.py:268-294 | a cache miss that succeeds returns the local path |
| Nexus.FromFolder | replay_testing/fixtures/nexus.py:255-294 | a successful download returns the local path |
| Nexus.DownloadSpec | replay_testing/fixtures/nexus.py:232-294 | a successful `download` returns `destination/<last piece>` |
| Nexus.Download | replay_testing/fixtures/nexus.py:232-294 | the method's file system and result are those of `download`, and a success returns the local path |
| Nexus.DownloadFromFolder | replay_testing/fixtures/nexus.py:255-294 | the method's steps after the folder is made agree with `download` |
| Nexus.DownloadIntoCache | replay_testing/fixtures/nexus.py:268-294 | the method's cache-miss steps agree with `download` |
| Nexus.CacheHitSkipsDownload | replay_testing/fixtures/nexus.py:262-266 | with a valid cache the outcome is the copy out of the cache, whatever curl and the sidecar encoding would do |
| Nexus.BadDownloadRemoved | replay_testing/fixtures/nexus.py:279-285 | a download that does not begin with the magic is removed from the cache and reported as not a valid MCAP file |
| Nexus.SidecarOnlyAfterVerify | replay_testing/fixtures/nexus.py:273-288 | unless the download succeeded and passed the magic check, the sidecar is left as it was |
| Nexus.VerifiedDownloadCached | replay_testing/fixtures/nexus.py:286 | after a verified download's sidecar is written, the cache is valid for the metadata it was written from, given that reading a sidecar returns what writing it stored |
| OrderedDicts.Assign | replay_testing/fixtures/nexus.py:68 | after `d[key] = value` the key holds the value, every other key keeps its value, and no key occurs twice |
| OrderedDicts.LastPairWins | replay_testing/fixtures/nexus.py:64-68 | assigning pairs in order leaves each key once, holding the value of its last pair |
| Strings.Split | replay_testing/fixtures/nexus.py:64 | `split` gives at least one piece and none contains the separator |
| Strings.JoinSplit | replay_testing/fixtures/nexus.py:64 | joining the pieces of a split gives back the string |
| Strings.SplitJoin | replay_testing/fixtures/nexus.py:64 | splitting a join of pieces without the separator gives back the pieces |
| Strings.Strip | replay_testing/fixtures/nexus.py:65 | `strip()` leaves no white space at either end |
| Strings.StripIsInfix | replay_testing/fixtures/nexus.py:65 | `strip()` cuts white space from both ends and nothing else |
| Strings.FirstIndex | replay_testing/fixtures/nexus.py:67 | `find` gives the first position of the character, and the length exactly when it does not occur |
| Strings.NatToString | replay_testing/junit_to_xml.py:35-37 | `str(n)` is decimal digits with no leading zero |
| Strings.DecimalOfNatToString | replay_testing/junit_to_xml.py:35-37 | reading back `str(n)` gives `n` |
| Paths.Basename | replay_testing/remote_fixtures/s3.py:96 | `os.path.basename` has no '/', ends the path, and is the whole path when it has no '/' |
| Paths.LastPieceIsBasename | replay_testing/fixture_wrappers/mcap.py:34 | `p.split("/")[-1]` equals `os.path.basename(p)` |
| Paths.OsJoin | replay_testing/utils.py:10 | `os.path.join(a, b)` ends with `b` |
| Paths.BasenameOfJoin | replay_testing/remote_fixtures/s3.py:104 | joining a name without '/' onto a folder starts with the folder and has that name as base name |
| Paths.Extension | replay_testing/replay_runner.py:151 | `splitext(p)[1]` is empty or a '.' followed by no '.' or '/', ending `p` |
| Paths.Stem | replay_testing/replay_runner.py:176 | the stem is a prefix of the name |
| Paths.Parse | replay_testing/fixtures/nexus.py:118 | a parsed path is well formed |
| Paths.ParseRender | replay_testing/fixtures/nexus.py:118-120 | parsing the string of a well-formed path gives the path back |
| Paths.Parent | replay_testing/fixtures/nexus.py:119 | the parent is the path without its last part, and a path without parts is its own parent |
| Paths.Div | replay_testing/fixtures/nexus.py:118 | `p / s` is `s` when `s` is absolute, and `p` with the parts of `s` appended otherwise |
| Paths.ParseJoin | replay_testing/replay_fixture.py:45 | joining one part onto the string of a path appends that part |
| FileTree.MkdirAllMakes | replay_testing/fixtures/nexus.py:119 | after the missing directories are made, a directory exists at the path |
| FileTree.EnsureDir | replay_testing/remote_fixtures/s3.py:101 | `mkdir(parents=True, exist_ok=True)` on an existing directory changes nothing |
| FileTree.WriteFileWrites | replay_testing/fixtures/nexus.py:176-177 | a write succeeds exactly when the path names no directory and its directory exists; the file then holds the data |
| FileTree.CopyFile | replay_testing/fixture_wrappers/mcap.py:35 | a copy needs a file at the source, and the target is the destination or, for a directory, the source's base name inside it |
| FileTree.CopyFileCopies | replay_testing/fixture_wrappers/mcap.py:35 | the copy holds the source's data |
| FileTree.Move | replay_testing/replay_fixture.py:45 | `shutil.move` onto a directory moves into it, and the new path is returned |
| FileTree.MoveMoves | replay_testing/replay_fixture.py:45 | the moved node is found at the path returned |
| FileTree.RenameMoves | replay_testing/replay_fixture.py:45 | a renamed node is at its new path and, unless one path lies inside the other, gone from its old one |
| FileTree.RmTreeRemoves | replay_testing/replay_fixture.py:46 | after `rmtree`, nothing is left at the folder or below it |
| FileTree.UnlinkRemoves | replay_testing/fixtures/nexus.py:282 | after `unlink(missing_ok=True)` no file is at the path |
| FileTree.UnlinkKeepsApart | replay_testing/fixtures/nexus.py:282 | unlinking a file leaves every path apart from it as it was |

## Left out

- The ROS launch service, the recorder include and `ros2 bag play` are not run. The launch service is a function from the file system and the launch description to the file system after the run.
- Recordings are abstract (topics and messages). The rosbag2 and mcap readers and writers (`replay_testing/reader.py`) are a decode/encode pair of functions. The model does not capture a recording that opens but is truncated or corrupt.
- The unittest machinery is left out, because it is a host test framework:
  - the `analyze` decorator, `TestLoader`, `TextTestRunner`;
  - the `AnalyzeWithReader` subclass;
  - `ReplayTestResult.successes`.
  A test run is a function returning (testsRun, failures, errors).
- requests, curl and boto3 are functions, and the Nexus request timeout is not modelled. A search response that is not a JSON object is folded into "the request failed".
- Logging and the stage banners are left out, as are XML pretty-printing and writing `results.xml`. These are only presentation and I/O.
- `cli.py` (argument parsing and module loading) is I/O.
- `analyze` passes its results dictionary to `unittest_results_to_xml`, which takes a list of results. The model passes the dictionary's test results flattened in insertion order.
- `initialize_run_reader` uses an attribute that does not exist. It is not modelled.
- The example test scripts use attribute names that the decorators do not define. They are not modelled.
- `models.py` declares `McapFixture`, while `replay_fixture.py` and two providers import `Mcap`. The model treats both as the one record `McapFixture(path)`. The optional reader field is not modelled.
- `NexusFixture.fixture_key` is not modelled. It is only derived data that the core never reads.
- Nexus.WriteSidecar: an `IOError` while writing the sidecar is only logged. Its cause (the file system refusing the write) is modelled, but not which errors `open` can raise.
- Nexus.CopyOut: `copy2`'s copying of timestamps and permissions is not modelled, because the file tree holds no metadata.
- S3: errors raised while creating the boto3 session or client are left out. The `ContentLength` log line and the `.mcap` suffix warning are left out too; both only log.
- S3.DownloadSpec: a partial file that a failed `download_file` leaves behind is not modelled. The file system after a failed fetch is the one after `mkdir`.
- McapWrapper.Download: the provider is a value. That its own `path` field is never modified holds by construction and is not stated as a contract.
- `BaseFixture` is an abstract base class with no behaviour; each provider's `download` is modelled on its own.
- ReplayRunner.FixturesOfClass: classes tagged as the fixtures phase without `@fixtures` are out of scope. When their topic attributes are not lists of strings, the model stops with `MalformedTopics` before the recording loop. The source would go on: it tests `in` on a string, takes `set()` of it, or raises when a recording is read.
- FileTree.Locate: the working directory is taken to be the root. Relative and absolute paths name the same node, so the relative CI results directory lands at the root. `""` names the root, while `os.path.exists("")` is false, so a fixture path `""` gets the not-an-MCAP error rather than "does not exist".
- Nexus.IsCacheValid: a sidecar holding JSON that is not an object is counted as an invalid cache. In the source, `metadata.get` raises `AttributeError` there (nexus.py:150), which the handler at line 163 does not catch, so `download` fails.
- RunDecorator.Invoke: a keyword-only parameter without a default is not modelled. It makes every call fail; the model binds on positional arguments alone.
- ReplayRunner.Runner.Fixtures: `fixture_cls()` is not modelled, so an `__init__` that raises is not modelled either; topics are read from the class attributes.
- ReplayRunner.Runner.Analyze: the `write_junit` flag only controls writing the file, which is left out.

## Findings

| source | as written | input that shows it | evidently intended | confidence | as-written member | corrected member |
|---|---|---|---|---|---|---|
| replay_testing/decorators/fixtures.py:30-47 | the four type-check messages use `cls.__name`, which Python mangles to `cls._fixtures__name` inside the class body, so building the message raises `AttributeError` | a class named `Fixtures` with `input_topics = "/chatter"` | a `TypeError` saying `'input_topics' attribute must be a list` | not executed | FixturesDecorator.AsWrittenRaisesAttributeError | FixturesDecorator.Validate |
