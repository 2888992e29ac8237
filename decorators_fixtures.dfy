/**
 * The decorator that registers a class as the fixtures phase: it checks the class's topic lists,
 * attaches the recordings to replay and tags the class.
 */
module FixturesDecorator {
  import opened Wrappers
  import Models
  import opened TestClasses

  function MissingMessage(name: string, attribute: string): string {
    "Class " + name + " must define a '" + attribute + "' attribute."
  }

  function NotListMessage(name: string, attribute: string): string {
    "Class " + name + " '" + attribute + "' attribute must be a list."
  }

  function NotStringsMessage(name: string, attribute: string): string {
    "Class " + name + " '" + attribute + "' attribute must be a list of strings."
  }

  /**
   * The checks on a class's `input_topics` and `output_topics`, in the order they are made,
   * with the error the first failing one raises. The element check of `output_topics` reports
   * `input_topics` in its message, as the code has it.
   */
  function Validate(name: string, inputTopics: Option<Value>, outputTopics: Option<Value>): (r: Option<PyError>)
    ensures r.None? <==>
      inputTopics.Some? && IsStringList(inputTopics.value) && outputTopics.Some? && IsStringList(outputTopics.value)
    ensures r.Some? ==> r.value.TypeError?
  {
    if inputTopics.None? then Some(TypeError(MissingMessage(name, "input_topics")))
    else if !inputTopics.value.List? then Some(TypeError(NotListMessage(name, "input_topics")))
    else if !AllStrings(inputTopics.value.items) then Some(TypeError(NotStringsMessage(name, "input_topics")))
    else if outputTopics.None? then Some(TypeError(MissingMessage(name, "output_topics")))
    else if !outputTopics.value.List? then Some(TypeError(NotListMessage(name, "output_topics")))
    else if !AllStrings(outputTopics.value.items) then Some(TypeError(NotStringsMessage(name, "input_topics")))
    else None
  }

  /** What evaluating `cls.__name` inside the decorator's class body raises: Python mangles the name to `_fixtures__name`. */
  function MangledNameError(name: string): PyError {
    AttributeError("type object '" + name + "' has no attribute '_fixtures__name'")
  }

  /**
   * The checks as written: the four type checks build their messages from `cls.__name`, so
   * instead of the intended `TypeError` they raise the `AttributeError` of the mangled name.
   */
  function ValidateAsWritten(name: string, inputTopics: Option<Value>, outputTopics: Option<Value>): (r: Option<PyError>)
  {
    if inputTopics.None? then Some(TypeError(MissingMessage(name, "input_topics")))
    else if !inputTopics.value.List? then Some(MangledNameError(name))
    else if !AllStrings(inputTopics.value.items) then Some(MangledNameError(name))
    else if outputTopics.None? then Some(TypeError(MissingMessage(name, "output_topics")))
    else if !outputTopics.value.List? then Some(MangledNameError(name))
    else if !AllStrings(outputTopics.value.items) then Some(MangledNameError(name))
    else None
  }

  /** As written, the decorator accepts and rejects the same classes; only the exception of a failed type check differs. */
  lemma AsWrittenAgrees(name: string, inputTopics: Option<Value>, outputTopics: Option<Value>)
    ensures ValidateAsWritten(name, inputTopics, outputTopics).None? <==> Validate(name, inputTopics, outputTopics).None?
    ensures var w := ValidateAsWritten(name, inputTopics, outputTopics);
      w.Some? ==> w == Validate(name, inputTopics, outputTopics) || w == Some(MangledNameError(name))
  {
  }

  /** A class whose `input_topics` is a string: as written it gets an `AttributeError` where a `TypeError` is meant. */
  lemma AsWrittenRaisesAttributeError()
    ensures ValidateAsWritten("Fixtures", Some(Str("/chatter")), None) ==
      Some(MangledNameError("Fixtures"))
    ensures Validate("Fixtures", Some(Str("/chatter")), None) ==
      Some(TypeError(NotListMessage("Fixtures", "input_topics")))
  {
  }

  /** `output_topics` is looked at only once `input_topics` has passed its checks. */
  lemma InputCheckedFirst(name: string, inputTopics: Option<Value>, outputTopics: Option<Value>, otherOutputTopics: Option<Value>)
    requires inputTopics.None? || !IsStringList(inputTopics.value)
    ensures Validate(name, inputTopics, outputTopics) == Validate(name, inputTopics, otherOutputTopics)
  {
  }

  /** A class with valid input topics and no `output_topics` is rejected with a `TypeError`. */
  lemma MissingOutputTopics(name: string, inputTopics: Value)
    requires IsStringList(inputTopics)
    ensures Validate(name, Some(inputTopics), None) == Some(TypeError(MissingMessage(name, "output_topics")))
  {
  }

  /** Empty topic lists pass, since `all` over nothing holds. */
  lemma EmptyListsAccepted(name: string)
    ensures Validate(name, Some(List([])), Some(List([]))) == None
  {
  }

  /** A fixtures decorator, holding the recordings it attaches. */
  class Fixtures {
    var fixtureList: Option<seq<Models.McapFixture>>

    /** `fixtures()`: no `fixture_list` keyword, so `None` is attached. */
    constructor ()
      ensures fixtureList == None
    {
      fixtureList := None;
    }

    /** `fixtures.parameterize(fixture_list)`. */
    constructor Parameterize(list: seq<Models.McapFixture>)
      ensures fixtureList == Some(list)
    {
      fixtureList := Some(list);
    }

    /**
     * `fixtures.__call__(cls)`: a class that fails a check is rejected and left as it was; one
     * that passes gets the decorator's recordings and the fixtures tag and is returned itself.
     */
    method Apply(cls: PyClass) returns (r: Result<PyClass, PyError>)
      modifies cls
      ensures var v := Validate(cls.name, old(cls.inputTopics), old(cls.outputTopics));
        (r.Failure? <==> v.Some?) && (r.Failure? ==> v == Some(r.error) && unchanged(cls))
      ensures r.Success? ==> r.value == cls && cls.fixtureList == Some(fixtureList) && cls.phase == Some(Models.Fixtures)
      ensures r.Success? ==> cls.name == old(cls.name) && cls.inputTopics == old(cls.inputTopics) && cls.outputTopics == old(cls.outputTopics)
      ensures r.Success? ==> cls.generate == old(cls.generate) && cls.parameters == old(cls.parameters) && cls.qosOverridesYaml == old(cls.qosOverridesYaml)
    {
      var v := Validate(cls.name, cls.inputTopics, cls.outputTopics);
      if v.Some? {
        return Failure(v.value);
      }
      cls.fixtureList := Some(fixtureList);
      cls.phase := Some(Models.Fixtures);
      return Success(cls);
    }
  }
}
