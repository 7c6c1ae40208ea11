/** What the step factories and the pipeline share: the payload passed between steps,
    the step classes a factory can look up, the configuration naming one step, the
    export selection that registers a module's names, and the step object whose
    successor a factory links. */
module Steps {
  import opened Wrappers

  /** The data handed from step to step: `None`, or some text. */
  datatype Payload = Null | Text(text: string)

  /** The keyword arguments of a step's constructor. */
  type Params = map<string, string>

  /** A step class, known by its name; `factoryAware` marks the classes that mix in
      `HasStepsFactoryMixin` and so take the factory as their first argument. */
  datatype StepClass = StepClass(name: string, factoryAware: bool)

  /** A name bound in a module namespace: a step class, or anything else a module holds
      (an imported module, a logger, a function). */
  datatype Member = StepType(cls: StepClass) | OtherObject

  /** A namespace: the factory's module globals, or a steps module's `__dict__`. */
  type Scope = map<string, Member>

  /** One entry of a pipeline's steps configuration: the `class` key and, when present,
      the `params` key. */
  datatype StepConfig = StepConfig(className: string, params: Option<Params>)

  /** The parameters a configuration passes: its `params`, or none at all. */
  function ParamsOf(config: StepConfig): (p: Params)
    ensures config.params.None? ==> p == map[]
    ensures config.params.Some? ==> p == config.params.value
  {
    config.params.GetOr(map[])
  }

  /** An imported steps module: its namespace and, when it defines one, its `__all__`. */
  datatype StepsModule = StepsModule(members: Scope, all: Option<seq<string>>)

  datatype ImportError = MissingExport(name: string)

  /** A name that does not start with an underscore. */
  predicate IsPublic(name: string) {
    |name| == 0 || name[0] != '_'
  }

  /** The first of `names` the namespace lacks, in order. */
  function FirstMissing(names: seq<string>, members: Scope): (r: Option<string>)
    ensures r.None? <==> forall i :: 0 <= i < |names| ==> names[i] in members
    ensures r.Some? ==> exists k :: 0 <= k < |names| && names[k] == r.value && r.value !in members
                                   && forall j :: 0 <= j < k ==> names[j] in members
  {
    if names == [] then None
    else if names[0] !in members then Some(names[0])
    else
      var rest := FirstMissing(names[1..], members);
      if rest.Some? then
        ghost var k :| 0 <= k < |names[1..]| && names[1..][k] == rest.value && rest.value !in members
                       && forall j :: 0 <= j < k ==> names[1..][j] in members;
        assert names[k + 1] == rest.value;
        rest
      else rest
  }

  /** The names a steps module exports and what they are bound to: the names listed in
      `__all__` when the module has one, otherwise every name not starting with `_`.
      Looking up a listed name the module does not have raises before anything is
      registered. */
  function Exports(m: StepsModule): (r: Result<Scope, ImportError>)
    ensures m.all.None? ==> r.Ok? && forall k :: k in r.value <==> k in m.members && IsPublic(k)
    ensures m.all.Some? ==>
      (r.Err? <==> exists i :: 0 <= i < |m.all.value| && m.all.value[i] !in m.members)
    ensures m.all.Some? && r.Ok? ==> forall k :: k in r.value <==> k in m.all.value
    ensures m.all.Some? && r.Err? ==> r.error.name in m.all.value && r.error.name !in m.members
    ensures r.Ok? ==> forall k :: k in r.value ==> k in m.members && r.value[k] == m.members[k]
  {
    match m.all
    case None => Ok(map k | k in m.members && IsPublic(k) :: m.members[k])
    case Some(names) =>
      match FirstMissing(names, m.members)
      case Some(n) => Err(MissingExport(n))
      case None =>
        assert forall k :: k in names ==> k in m.members;
        Ok(map k | k in names :: m.members[k])
  }

  /** A constructed step. Its successor is the step it forwards its result to. */
  class Step {
    const cls: StepClass
    const params: Params
    var next: Step?

    constructor (cls: StepClass, params: Params)
      ensures this.cls == cls && this.params == params && next == null
    {
      this.cls := cls;
      this.params := params;
      next := null;
    }

    /** `set_next_step`. */
    method SetNextStep(step: Step?)
      modifies this
      ensures next == step
    {
      next := step;
    }
  }
}
