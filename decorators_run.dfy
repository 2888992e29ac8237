/**
 * The decorator that registers a class as the run phase: it replaces the class's
 * `generate_launch_description` by a wrapper that takes the run parameters, attaches the
 * parameter sets and tags the class.
 */
module RunDecorator {
  import opened Wrappers
  import Models
  import opened TestClasses

  /** How the wrapper calls the function it replaced. */
  datatype CallForm = SelfOnly | SelfAndParams

  /** The wrapper's rule: the parameters are passed on only to a signature of exactly two parameters. */
  function Dispatch(paramCount: nat): CallForm {
    if paramCount == 2 then SelfAndParams else SelfOnly
  }

  /** The number of parameters in the signature of `m`, `self` included; the wrapper's is `(self, parameters)`. */
  function Arity(m: LaunchMethod): nat {
    match m
    case Original(g) => g.paramCount
    case Wrapped(_) => 2
  }

  /** Whether a call passing `n` positional arguments, `self` included, binds to the signature of `g`. */
  predicate Binds(g: Generator, n: nat) {
    g.required <= n && (g.maxPositional.None? || n <= g.maxPositional.value)
  }

  /** Whether a call passing `n` positional arguments binds to `m`; the wrapper takes exactly two. */
  predicate Accepts(m: LaunchMethod, n: nat) {
    match m
    case Original(g) => Binds(g, n)
    case Wrapped(_) => n == 2
  }

  /** The number of arguments of a call on an instance: `self`, and the parameters if given. */
  function ArgumentCount(args: Option<Models.RunParams>): nat {
    if args.Some? then 2 else 1
  }

  /** A call with arguments its signature does not take. */
  const ArityError := TypeError("generate_launch_description() got the wrong number of arguments")

  /** Calling `m` on an instance with `args` after `self`. */
  function Invoke(m: LaunchMethod, args: Option<Models.RunParams>): Result<UserLaunch, PyError>
    decreases m
  {
    if !Accepts(m, ArgumentCount(args)) then Failure(ArityError)
    else
      match m
      case Original(g) => Success(g.describe(args))
      case Wrapped(inner) =>
        match Dispatch(Arity(inner))
        case SelfAndParams => Invoke(inner, args)
        case SelfOnly => Invoke(inner, None)
  }

  /** The user's function below any number of wrappers. */
  function Innermost(m: LaunchMethod): Generator {
    match m
    case Original(g) => g
    case Wrapped(inner) => Innermost(inner)
  }

  /**
   * The arity rule stated on the user's function: a signature of exactly two entries gets
   * `self` and the parameters, any other gets `self` alone; the call fails when those
   * arguments do not bind.
   */
  function ForwardTo(g: Generator, p: Models.RunParams): Result<UserLaunch, PyError> {
    if g.paramCount == 2 then
      if Binds(g, 2) then Success(g.describe(Some(p))) else Failure(ArityError)
    else if Binds(g, 1) then Success(g.describe(None))
    else Failure(ArityError)
  }

  /**
   * Calling the decorated method with parameters obeys the arity rule of the user's function,
   * however many times the class was decorated.
   */
  lemma {:induction false} WrapperForwards(m: LaunchMethod, p: Models.RunParams)
    ensures Invoke(Wrapped(m), Some(p)) == ForwardTo(Innermost(m), p)
    decreases m
  {
    match m
    case Original(g) =>
    case Wrapped(inner) =>
      WrapperForwards(inner, p);
  }

  /** Unless the function it wraps has two signature entries, the wrapper calls it with `self` alone. */
  lemma SelfOnlyUnlessTwo(g: Generator, p: Models.RunParams)
    ensures g.paramCount == 2 ==> Invoke(Wrapped(Original(g)), Some(p)) == Invoke(Original(g), Some(p))
    ensures g.paramCount != 2 ==> Invoke(Wrapped(Original(g)), Some(p)) == Invoke(Original(g), None)
  {
  }

  /**
   * Parameters with defaults and `*args` count as signature entries, so a function such as
   * `(self, a=None, b=None)` or `(self, *args, **kwargs)` is called with `self` alone, and
   * that call succeeds.
   */
  lemma DefaultsGetSelfOnly(g: Generator, p: Models.RunParams)
    requires g.paramCount != 2 && g.required <= 1 && (g.maxPositional.None? || 1 <= g.maxPositional.value)
    ensures Invoke(Wrapped(Original(g)), Some(p)) == Success(g.describe(None))
  {
  }

  /**
   * `(self, parameters=None)` takes the parameters, and `(self, *, option)` (two entries, one
   * positional) fails, since the wrapper passes the parameters positionally.
   */
  lemma TwoEntriesGetParams(d: Option<Models.RunParams> -> UserLaunch, p: Models.RunParams)
    ensures Invoke(Wrapped(Original(Generator(2, 1, Some(2), d))), Some(p)) == Success(d(Some(p)))
    ensures Invoke(Wrapped(Original(Generator(2, 1, Some(1), d))), Some(p)) == Failure(ArityError)
  {
  }

  /** The wrapper itself cannot be called without parameters. */
  lemma WrapperNeedsParameters(m: LaunchMethod)
    ensures Invoke(Wrapped(m), None).Failure?
  {
  }

  /** A run decorator, holding the parameter sets it attaches. */
  class Run {
    var parameters: Option<seq<Models.RunParams>>

    /** `run()`: no `parameters` keyword. */
    constructor ()
      ensures parameters == None
    {
      parameters := None;
    }

    /** `run.parameterize(parameters)`. */
    constructor Parameterize(ps: seq<Models.RunParams>)
      ensures parameters == Some(ps)
    {
      parameters := Some(ps);
    }

    /** `run.default()`: one parameter set, named `default`, with no parameters. */
    constructor Default()
      ensures parameters == Some([Models.RunParams("default", map[])])
    {
      parameters := Some([Models.RunParams("default", map[])]);
    }

    /**
     * `run.__call__(cls)`: a class without `generate_launch_description` is rejected and left as
     * it was; otherwise that method is wrapped, the parameters replace the class's own only when
     * the decorator has some, and the class is tagged as the run phase and returned itself.
     */
    method Apply(cls: PyClass) returns (r: Result<PyClass, PyError>)
      modifies cls
      ensures r.Failure? <==> old(cls.generate).None?
      ensures r.Failure? ==>
        r.error == TypeError("Class " + cls.name + " must define a 'generate_launch_description' method.") && unchanged(cls)
      ensures r.Success? ==> r.value == cls && cls.generate == Some(Wrapped(old(cls.generate).value)) && cls.phase == Some(Models.Run)
      ensures r.Success? ==> cls.parameters == (if parameters.Some? then parameters else old(cls.parameters))
      ensures r.Success? ==> cls.name == old(cls.name) && cls.inputTopics == old(cls.inputTopics) && cls.outputTopics == old(cls.outputTopics)
      ensures r.Success? ==> cls.fixtureList == old(cls.fixtureList) && cls.qosOverridesYaml == old(cls.qosOverridesYaml)
    {
      if cls.generate.None? {
        return Failure(TypeError("Class " + cls.name + " must define a 'generate_launch_description' method."));
      }
      var original := cls.generate.value;
      cls.generate := Some(Wrapped(original));
      if parameters.Some? {
        cls.parameters := parameters;
      }
      cls.phase := Some(Models.Run);
      return Success(cls);
    }
  }
}
