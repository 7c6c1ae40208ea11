/** `StepFactory` of `pipeliner/step_factory.py`: a factory whose namespace starts with
    the built-in steps and which, on every `create`, merges the custom module's exports
    into it, checks every configured class name, builds the steps in order and links
    each to the next. */
module ChainFactory {
  import opened Wrappers
  import opened Steps

  datatype ChainError =
    | ImportFailed(cause: ImportError)  // an `__all__` name the custom module lacks
    | UnknownStep(name: string)         // `ModuleNotFoundError` from the validation loop
    | NotCallable(name: string)         // the name is bound to something that is not a class
    | EmptyChain                        // `steps[0]` of an empty list

  /** The index of the first configuration whose class name the namespace lacks, or the
      length of the list when it lacks none. */
  function FirstUnknown(configs: seq<StepConfig>, scope: Scope): (k: nat)
    ensures k <= |configs|
    ensures forall j :: 0 <= j < k ==> configs[j].className in scope
    ensures k < |configs| ==> configs[k].className !in scope
  {
    if configs == [] || configs[0].className !in scope then 0
    else 1 + FirstUnknown(configs[1..], scope)
  }

  /** The index of the first configuration whose name is bound to something other than a
      step class, or the length of the list. */
  function FirstNotClass(configs: seq<StepConfig>, scope: Scope): (k: nat)
    requires forall j :: 0 <= j < |configs| ==> configs[j].className in scope
    ensures k <= |configs|
    ensures forall j :: 0 <= j < k ==> scope[configs[j].className].StepType?
    ensures k < |configs| ==> scope[configs[k].className].OtherObject?
  {
    if configs == [] || scope[configs[0].className].OtherObject? then 0
    else 1 + FirstNotClass(configs[1..], scope)
  }

  /** No step occurs twice. */
  predicate Distinct(chain: seq<Step>) {
    forall i, j :: 0 <= i < j < |chain| ==> chain[i] != chain[j]
  }

  /** Each step's successor is the step after it, and the last step has none. */
  predicate Linked(chain: seq<Step>)
    reads set i | 0 <= i < |chain| :: chain[i]
  {
    && (forall i :: 0 <= i < |chain| - 1 ==> chain[i].next == chain[i + 1])
    && (|chain| > 0 ==> chain[|chain| - 1].next == null)
  }

  /** Step `i` of the chain was built from configuration `i`. */
  predicate BuiltFrom(chain: seq<Step>, configs: seq<StepConfig>, scope: Scope)
    requires forall j :: 0 <= j < |configs| ==> configs[j].className in scope
  {
    && |chain| == |configs|
    && forall i :: 0 <= i < |chain| ==>
         scope[configs[i].className] == StepType(chain[i].cls) && chain[i].params == ParamsOf(configs[i])
  }

  /** The loop of `create` that sets each step's successor to the step after it. */
  method Link(steps: seq<Step>)
    requires Distinct(steps)
    requires forall j :: 0 <= j < |steps| ==> steps[j].next == null
    modifies set j | 0 <= j < |steps| :: steps[j]
    ensures Linked(steps)
  {
    var i := 0;
    while i + 1 < |steps|
      invariant steps != [] ==> i < |steps|
      invariant forall j :: 0 <= j < i && j + 1 < |steps| ==> steps[j].next == steps[j + 1]
      invariant forall j :: i <= j < |steps| ==> steps[j].next == null
    {
      steps[i].SetNextStep(steps[i + 1]);
      i := i + 1;
    }
  }

  /** The validation loop of `create`. */
  method FindUnknown(configs: seq<StepConfig>, names: Scope) returns (k: nat)
    ensures k == FirstUnknown(configs, names)
  {
    k := 0;
    while k < |configs|
      invariant 0 <= k <= |configs|
      invariant forall j :: 0 <= j < k ==> configs[j].className in names
    {
      if configs[k].className !in names {
        return;
      }
      k := k + 1;
    }
  }

  /** The list comprehension of `create` that builds the steps in order; calling a name
      bound to something other than a class stops it at that name. */
  method Build(configs: seq<StepConfig>, names: Scope) returns (steps: seq<Step>, bad: nat)
    requires forall j :: 0 <= j < |configs| ==> configs[j].className in names
    ensures bad == FirstNotClass(configs, names)
    ensures bad == |configs| ==> BuiltFrom(steps, configs, names) && Distinct(steps)
    ensures bad == |configs| ==> forall j :: 0 <= j < |steps| ==> fresh(steps[j]) && steps[j].next == null
  {
    steps := [];
    bad := 0;
    while bad < |configs|
      invariant 0 <= bad <= |configs| && |steps| == bad
      invariant forall j :: 0 <= j < bad ==> names[configs[j].className].StepType?
      invariant BuiltFrom(steps, configs[..bad], names)
      invariant forall j :: 0 <= j < bad ==> fresh(steps[j]) && steps[j].next == null
      invariant Distinct(steps)
    {
      match names[configs[bad].className]
      case OtherObject =>
        return;
      case StepType(cls) =>
        var step := new Step(cls, ParamsOf(configs[bad]));
        steps := steps + [step];
        bad := bad + 1;
    }
    assert configs[..bad] == configs;
  }

  class StepFactory {
    var scope: Scope
    const customSteps: StepsModule

    constructor (builtins: Scope, customSteps: StepsModule)
      ensures scope == builtins && this.customSteps == customSteps
    {
      scope := builtins;
      this.customSteps := customSteps;
    }

    /** `_import_custom_steps`: the custom exports overwrite same-named bindings; an
        import that raises leaves the namespace as it was. */
    method ImportCustomSteps() returns (r: Result<(), ImportError>)
      modifies this
      ensures r.Err? <==> Exports(customSteps).Err?
      ensures r.Err? ==> r.error == Exports(customSteps).error && scope == old(scope)
      ensures r.Ok? ==> scope == old(scope) + Exports(customSteps).value
    {
      var exports := Exports(customSteps);
      if exports.Err? {
        return Err(exports.error);
      }
      scope := scope + exports.value;
      r := Ok(());
    }

    /** `create`: import the custom steps, check every class name before building
        anything, build the steps in configuration order, link each to the next, and
        return the first. */
    method Create(configs: seq<StepConfig>) returns (r: Result<Step, ChainError>, chain: seq<Step>)
      modifies this
      ensures Exports(customSteps).Err? ==>
        r == Err(ImportFailed(Exports(customSteps).error)) && scope == old(scope) && chain == []
      ensures Exports(customSteps).Ok? ==> scope == old(scope) + Exports(customSteps).value
      ensures Exports(customSteps).Ok? && FirstUnknown(configs, scope) < |configs| ==>
        r == Err(UnknownStep(configs[FirstUnknown(configs, scope)].className)) && chain == []
      ensures Exports(customSteps).Ok? && FirstUnknown(configs, scope) == |configs|
              && FirstNotClass(configs, scope) < |configs| ==>
        r == Err(NotCallable(configs[FirstNotClass(configs, scope)].className)) && chain == []
      ensures Exports(customSteps).Ok? && configs == [] ==> r == Err(EmptyChain) && chain == []
      ensures Exports(customSteps).Ok? && configs != [] && FirstUnknown(configs, scope) == |configs|
              && FirstNotClass(configs, scope) == |configs| ==>
        && BuiltFrom(chain, configs, scope)
        && r == Ok(chain[0])
        && (forall i :: 0 <= i < |chain| ==> fresh(chain[i]))
        && Distinct(chain)
        && Linked(chain)
    {
      chain := [];
      var imported := ImportCustomSteps();
      if imported.Err? {
        return Err(ImportFailed(imported.error)), [];
      }
      var names := scope;
      var unknown := FindUnknown(configs, names);
      if unknown < |configs| {
        return Err(UnknownStep(configs[unknown].className)), [];
      }
      var steps, bad := Build(configs, names);
      if bad < |configs| {
        return Err(NotCallable(configs[bad].className)), [];
      }
      Link(steps);
      if steps == [] {
        return Err(EmptyChain), [];
      }
      r, chain := Ok(steps[0]), steps;
    }
  }
}
