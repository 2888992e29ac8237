/**
 * The classes of a user's replay test module, as the phase decorators and the runner see them:
 * a name and the handful of attributes they read or set. An attribute that is missing is `None`.
 */
module TestClasses {
  import opened Wrappers
  import opened Models

  /** A Python attribute value, as far as the `isinstance` checks on it go. */
  datatype Value = Str(s: string) | List(items: seq<Value>) | Other

  /** Whether every element of `items` is a `str`. */
  predicate AllStrings(items: seq<Value>) {
    forall i :: 0 <= i < |items| ==> items[i].Str?
  }

  /** Whether `v` is a list of strings. */
  predicate IsStringList(v: Value) {
    v.List? && AllStrings(v.items)
  }

  /** The strings of a list of strings. */
  function StringItems(items: seq<Value>): (r: seq<string>)
    requires AllStrings(items)
    ensures |r| == |items| && forall i :: 0 <= i < |items| ==> r[i] == items[i].s
  {
    if items == [] then [] else [items[0].s] + StringItems(items[1..])
  }

  /** What a user's `generate_launch_description` returns; the harness only passes it on. */
  datatype UserLaunch = UserLaunch(entities: seq<string>)

  /**
   * A `generate_launch_description` written by the user. `paramCount` is the number of entries
   * of its signature (`self`, parameters with defaults, `*args`, `**kwargs` and keyword-only
   * ones all included); a call binds when it passes at least `required` positional arguments
   * (those without a default, `self` included) and at most `maxPositional`, which is `None` when
   * the signature has `*args`. `describe` is what it returns for the argument after `self`, if any.
   */
  datatype Generator = Generator(paramCount: nat, required: nat, maxPositional: Option<nat>,
                                 describe: Option<RunParams> -> UserLaunch)

  /** The function a class holds as `generate_launch_description`: the user's own, or a wrapper installed by the run decorator around what was there before. */
  datatype LaunchMethod = Original(g: Generator) | Wrapped(inner: LaunchMethod)

  /** The exceptions the decorators raise, with their messages. */
  datatype PyError = TypeError(message: string) | AttributeError(message: string)

  /** A class of the test module. */
  class PyClass {
    var name: string
    var inputTopics: Option<Value>
    var outputTopics: Option<Value>
    /** `None`: no attribute; `Some(None)`: the attribute holds `None`. */
    var fixtureList: Option<Option<seq<McapFixture>>>
    var generate: Option<LaunchMethod>
    var parameters: Option<seq<RunParams>>
    var qosOverridesYaml: Option<string>
    /** `__annotations__["replay_testing_phase"]`. */
    var phase: Option<Phase>

    /** A class called `className` that defines none of the attributes above. */
    constructor (className: string)
      ensures name == className && inputTopics == None && outputTopics == None && fixtureList == None
      ensures generate == None && parameters == None && qosOverridesYaml == None && phase == None
    {
      name := className;
      inputTopics := None;
      outputTopics := None;
      fixtureList := None;
      generate := None;
      parameters := None;
      qosOverridesYaml := None;
      phase := None;
    }
  }
}
