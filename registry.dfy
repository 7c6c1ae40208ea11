/** `StepsFactoryWithCustomSteps` of `pipeliner/steps_factory.py`: a factory that
    registers the names of a custom steps module and then of the built-in steps module
    into its namespace, and builds the steps of a configuration list by looking each
    class name up there. The factory holds no state after its constructor, so it is a
    value here and its operations are functions. */
module Registry {
  import opened Wrappers
  import opened Steps

  datatype FactoryError =
    | ImportFailed(cause: ImportError)  // an `__all__` name the module lacks
    | UnknownStep(name: string)         // `ModuleNotFoundError`: the class is not registered
    | NotAStepClass(name: string)       // `issubclass` on a name bound to something else

  /** A call of a step class: with the factory as first argument or without it, and
      with the configuration's parameters as keyword arguments. */
  datatype Construction = Construction(cls: StepClass, withFactory: bool, params: Params)

  /** The factory after its constructor: the namespace its lookups use. */
  datatype Factory = Factory(registry: Scope)

  /** The constructor: the given namespace, then the custom module's exports, then the
      built-in module's exports, each import overwriting earlier bindings. */
  function NewFactory(globals: Scope, custom: StepsModule, builtin: StepsModule): (r: Result<Factory, ImportError>)
    ensures Exports(custom).Err? ==> r == Err(Exports(custom).error)
    ensures Exports(custom).Ok? && Exports(builtin).Err? ==> r == Err(Exports(builtin).error)
    ensures r.Ok? ==> Exports(custom).Ok? && Exports(builtin).Ok?
    ensures r.Ok? ==> forall n ::
      (n in r.value.registry <==> n in globals || n in Exports(custom).value || n in Exports(builtin).value)
    ensures r.Ok? ==> forall n :: n in Exports(builtin).value ==> r.value.registry[n] == builtin.members[n]
    ensures r.Ok? ==> forall n :: n in Exports(custom).value && n !in Exports(builtin).value ==>
      r.value.registry[n] == custom.members[n]
    ensures r.Ok? ==> forall n :: n in globals && n !in Exports(custom).value && n !in Exports(builtin).value ==>
      r.value.registry[n] == globals[n]
  {
    var c :- Exports(custom);
    var b :- Exports(builtin);
    Ok(Factory(globals + c + b))
  }

  /** `create_step`: an unregistered class name raises; a registered class is called with
      the configuration's parameters, preceded by the factory when the class is
      factory-aware. */
  function CreateStep(f: Factory, config: StepConfig): (r: Result<Construction, FactoryError>)
    ensures config.className !in f.registry <==> r == Err(UnknownStep(config.className))
    ensures r.Ok? <==> config.className in f.registry && f.registry[config.className].StepType?
    ensures r.Ok? ==> r.value.cls == f.registry[config.className].cls
    ensures r.Ok? ==> r.value.params == ParamsOf(config)
    ensures r.Ok? ==> (r.value.withFactory <==> r.value.cls.factoryAware)
  {
    if config.className !in f.registry then Err(UnknownStep(config.className))
    else match f.registry[config.className]
      case OtherObject => Err(NotAStepClass(config.className))
      case StepType(cls) => Ok(Construction(cls, cls.factoryAware, ParamsOf(config)))
  }

  /** `create`: one step per configuration entry, in order; the first entry that cannot
      be built raises. */
  function Create(f: Factory, configs: seq<StepConfig>): (r: Result<seq<Construction>, FactoryError>)
    ensures r.Ok? <==> forall i :: 0 <= i < |configs| ==> CreateStep(f, configs[i]).Ok?
    ensures r.Ok? ==> |r.value| == |configs|
    ensures r.Ok? ==> forall i :: 0 <= i < |configs| ==> r.value[i] == CreateStep(f, configs[i]).value
    ensures r.Err? ==> exists k :: 0 <= k < |configs| && CreateStep(f, configs[k]) == Err(r.error)
                                  && forall j :: 0 <= j < k ==> CreateStep(f, configs[j]).Ok?
  {
    if configs == [] then Ok([])
    else
      var first :- CreateStep(f, configs[0]);
      var rest :- Create(f, configs[1..]);
      assert forall i :: 1 <= i < |configs| ==> configs[i] == configs[1..][i - 1];
      Ok([first] + rest)
  }

  /** A name both modules export is built from the built-in module's class. */
  lemma BuiltinShadowsCustom(globals: Scope, custom: StepsModule, builtin: StepsModule, config: StepConfig)
    requires NewFactory(globals, custom, builtin).Ok?
    requires config.className in Exports(builtin).value && builtin.members[config.className].StepType?
    ensures CreateStep(NewFactory(globals, custom, builtin).value, config).Ok?
    ensures CreateStep(NewFactory(globals, custom, builtin).value, config).value.cls
            == builtin.members[config.className].cls
  {
  }

  /** A name only the custom module exports is built from the custom class. */
  lemma CustomStepRegistered(globals: Scope, custom: StepsModule, builtin: StepsModule, config: StepConfig)
    requires NewFactory(globals, custom, builtin).Ok?
    requires config.className in Exports(custom).value && config.className !in Exports(builtin).value
    requires custom.members[config.className].StepType?
    ensures CreateStep(NewFactory(globals, custom, builtin).value, config).Ok?
    ensures CreateStep(NewFactory(globals, custom, builtin).value, config).value.cls
            == custom.members[config.className].cls
  {
  }

  /** An unregistered name after entries that can all be built refuses the whole list
      with that name. */
  lemma {:induction false} UnknownNameRefusesList(f: Factory, configs: seq<StepConfig>, k: nat)
    requires k < |configs| && configs[k].className !in f.registry
    requires forall j :: 0 <= j < k ==> CreateStep(f, configs[j]).Ok?
    ensures Create(f, configs) == Err(UnknownStep(configs[k].className))
  {
    if k > 0 {
      assert CreateStep(f, configs[0]).Ok?;
      assert configs[1..][k - 1] == configs[k];
      UnknownNameRefusesList(f, configs[1..], k - 1);
    }
  }

  // The three-step configuration of `test_pipeline_factory`: a text-producing step with
  // its parameters, then two identity steps, all built in order.
  const ProduceText := StepClass("ProduceText", false)
  const DoNothing := StepClass("DoNothing", false)
  const HelloParams: Params := map["text" := "Hello test!"]

  lemma FactoryExample(f: Factory)
    requires "ProduceText" in f.registry && f.registry["ProduceText"] == StepType(ProduceText)
    requires "DoNothing" in f.registry && f.registry["DoNothing"] == StepType(DoNothing)
    ensures Create(f, [StepConfig("ProduceText", Some(HelloParams)), StepConfig("DoNothing", None),
                       StepConfig("DoNothing", None)])
         == Ok([Construction(ProduceText, false, HelloParams), Construction(DoNothing, false, map[]),
                Construction(DoNothing, false, map[])])
  {
    var configs := [StepConfig("ProduceText", Some(HelloParams)), StepConfig("DoNothing", None),
                    StepConfig("DoNothing", None)];
    assert CreateStep(f, configs[0]) == Ok(Construction(ProduceText, false, HelloParams));
    assert CreateStep(f, configs[1]) == Ok(Construction(DoNothing, false, map[]));
    assert CreateStep(f, configs[2]) == Ok(Construction(DoNothing, false, map[]));
    var r := Create(f, configs);
    assert r.Ok? && |r.value| == 3;
    assert r.value[0] == Construction(ProduceText, false, HelloParams);
    assert r.value[1] == Construction(DoNothing, false, map[]) == r.value[2];
    assert r.value == [Construction(ProduceText, false, HelloParams), Construction(DoNothing, false, map[]),
                       Construction(DoNothing, false, map[])];
  }
}
