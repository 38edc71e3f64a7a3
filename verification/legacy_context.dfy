/** The step class of `Models/ApiContext.cs` (the revision the orchestrator
    uses): `ApiContext` and its value-carrying subclass `ApiContext<TBase>`,
    merged into one class because the orchestrator only ever builds the
    latter. */
module LegacySteps {
  import opened Common
  import opened Payloads
  import opened Metadata
  import opened StepModel
  import opened InputModels

  /** The oldest forwarded instance of every key, as `GetInput<T>()[0]`
      would read it. */
  function HeadsOf(m: InputModel<ApiContext>): (h: map<string, Head>)
    reads m, HeadObjects(m)
    ensures h.Keys == m.entries.Keys
    ensures forall k :: k in h ==> (h[k] == NoInstances <==> |m.entries[k]| == 0)
  {
    map k | k in m.entries :: if |m.entries[k]| == 0 then NoInstances else First(m.entries[k][0].value)
  }

  /** The instances `HeadsOf` reads. */
  function HeadObjects(m: InputModel<ApiContext>): set<ApiContext>
    reads m
  {
    set k | k in m.entries && |m.entries[k]| > 0 :: m.entries[k][0]
  }

  class ApiContext {
    /** The step type `T` this instance was created for. */
    const stepType: StepType
    /** `Inputs`: the forwarding map shared with the orchestrator. */
    const inputs: InputModel<ApiContext>
    /** The base class's `HasBody`; nothing assigns it after construction. */
    var hasBody: bool
    /** `ObjectValue`, the payload used for serialization. */
    var objectValue: Option<Json>
    /** `_obj`, the field behind `Value`. */
    var value: Option<Json>
    var endpointUrl: string

    /** Only the `Value` setter writes `ObjectValue`, so the two agree. */
    predicate InSync()
      reads this
    {
      objectValue == value
    }

    function State(): StepState
      reads this
    {
      StepState(endpointUrl, value)
    }

    /** `ApiContext<TBase>(baseObject, inputModel)`: `Value` is the given
        object or a fresh default one, so it is never null; `EndpointUrl`
        starts empty and the base `HasBody` keeps its default, false. */
    constructor (t: StepType, baseObject: Option<Json>, inputModel: InputModel<ApiContext>)
      ensures stepType == t && inputs == inputModel
      ensures endpointUrl == "" && !hasBody
      ensures value == Some(baseObject.GetOr(t.defaultValue)) && InSync()
    {
      stepType := t;
      inputs := inputModel;
      endpointUrl := "";
      hasBody := false;
      var v := Some(baseObject.GetOr(t.defaultValue));
      objectValue := v;
      value := v;
    }

    /** The `Value` setter also sets `ObjectValue`. */
    method SetValue(v: Option<Json>)
      modifies this`objectValue, this`value
      ensures value == v && objectValue == v
    {
      objectValue := v;
      value := v;
    }

    /** `GetInput<T>()`: the stored list for `T`'s name, in stored order, or
        APIFlowModelException when the map has no such key. */
    method GetInput(inputType: Option<string>) returns (r: Result<seq<ApiContext>>)
      ensures TypeKey(inputType) in inputs.entries <==> r.Ok?
      ensures r.Ok? ==> r.value == inputs.entries[TypeKey(inputType)]
      ensures r.Err? ==> r.error == ModelMissing(TypeKey(inputType))
    {
      var key := TypeKey(inputType);
      var found, list := inputs.TryGetValue(key);
      if list.None? {
        return Err(ModelMissing(key));
      }
      r := Ok(list.value);
    }

    /** `ResolveEndpointUrl(i)`: reads the route from `i`'s type and writes
        it into this instance's `EndpointUrl`; the message names this type. */
    method ResolveEndpointUrl(i: ApiContext) returns (r: Outcome)
      modifies this`endpointUrl
      ensures ResolveRoute(stepType.fullName, i.stepType.applyAttributes).Ok? ==>
                r == Pass && endpointUrl == ResolveRoute(stepType.fullName, i.stepType.applyAttributes).value
      ensures ResolveRoute(stepType.fullName, i.stepType.applyAttributes).Err? ==>
                r == Fail(ResolveRoute(stepType.fullName, i.stepType.applyAttributes).error) && endpointUrl == old(endpointUrl)
    {
      match ResolveRoute(stepType.fullName, i.stepType.applyAttributes)
      case Err(e) =>
        r := Fail(e);
      case Ok(route) =>
        endpointUrl := route;
        r := Pass;
    }

    /** `ConfigureEndpoint<T>(name, callback)`: appends `name=value`, computed
        from the oldest forwarded `T`, after '?' or, when the URL already has
        one, after '&'. */
    method ConfigureEndpointFor(q: QueryBinding) returns (r: Outcome)
      modifies this`endpointUrl
      ensures BindQuery(q, old(State()), old(HeadsOf(inputs))).Ok? ==>
                r == Pass && State() == BindQuery(q, old(State()), old(HeadsOf(inputs))).value
      ensures BindQuery(q, old(State()), old(HeadsOf(inputs))).Err? ==>
                r == Fail(BindQuery(q, old(State()), old(HeadsOf(inputs))).error) && endpointUrl == old(endpointUrl)
    {
      var input := GetInput(q.inputType);
      if input.Err? {
        return Fail(input.error);
      }
      if |input.value| == 0 {
        return Fail(IndexOutOfRange);
      }
      var parameter := q.name + "=" + q.render(input.value[0].value);
      var separator := if '?' in endpointUrl then '&' else '?';
      endpointUrl := endpointUrl + [separator] + parameter;
      r := Pass;
    }

    /** `ConfigureEndpoint(ref endpoint, inputModel)`: the base version turns
        a null `endpoint` into ""; a step type's override may then call
        `ConfigureEndpoint<T>`, which changes the instance itself. */
    method ConfigureEndpoint(endpoint: Option<string>) returns (ep: string, r: Outcome)
      modifies this`endpointUrl
      ensures ep == DefaultConfigureEndpoint(endpoint)
      ensures EndpointHook(stepType, old(State()), old(HeadsOf(inputs))).Ok? ==>
                r == Pass && State() == EndpointHook(stepType, old(State()), old(HeadsOf(inputs))).value
      ensures EndpointHook(stepType, old(State()), old(HeadsOf(inputs))).Err? ==>
                r == Fail(EndpointHook(stepType, old(State()), old(HeadsOf(inputs))).error) && State() == old(State())
    {
      ep := DefaultConfigureEndpoint(endpoint);
      if stepType.endpointHook.Some? {
        r := ConfigureEndpointFor(stepType.endpointHook.value);
      } else {
        r := Pass;
      }
    }

    /** `ConfigureClient(ref wrapper)`: a no-op in the base class; the HTTP
        client wrapper is not part of the model. */
    method ConfigureClient() {
    }

    /** `ConfigureModel<T>(callback)`: invokes the callback with the oldest
        forwarded `T` and this step's value whenever the callback is not null
        (this revision does not check the value); the mutation is seen through
        both `Value` and `ObjectValue`, which share the object. */
    method ConfigureModel(b: ModelBinding) returns (r: Outcome, invoked: bool)
      requires InSync()
      modifies this`value, this`objectValue
      ensures InSync()
      ensures BindModel(b, old(State()), old(HeadsOf(inputs))).Ok? ==>
                r == Pass && State() == BindModel(b, old(State()), old(HeadsOf(inputs))).value
      ensures BindModel(b, old(State()), old(HeadsOf(inputs))).Err? ==>
                r == Fail(BindModel(b, old(State()), old(HeadsOf(inputs))).error) && State() == old(State())
      ensures invoked <==> r.Pass? && b.bind.Some?
    {
      var input := GetInput(b.inputType);
      if input.Err? {
        return Fail(input.error), false;
      }
      if |input.value| == 0 {
        return Fail(IndexOutOfRange), false;
      }
      var selected := input.value[0];
      invoked := b.bind.Some?;
      if invoked && value.Some? {
        var v := Some(b.bind.value(selected.value, value.value));
        value, objectValue := v, v;
      }
      r := Pass;
    }

    /** Runs a hook body (`ApplyContext`'s or an override's) on this instance. */
    method RunHook(h: Hook) returns (r: Outcome)
      requires InSync() && this !in HeadObjects(inputs)
      modifies this`endpointUrl, this`value, this`objectValue
      ensures InSync()
      ensures StepModel.RunHook(h, old(State()), old(HeadsOf(inputs))).Ok? ==>
                r == Pass && State() == StepModel.RunHook(h, old(State()), old(HeadsOf(inputs))).value
      ensures StepModel.RunHook(h, old(State()), old(HeadsOf(inputs))).Err? ==>
                r == Fail(StepModel.RunHook(h, old(State()), old(HeadsOf(inputs))).error)
    {
      r := Pass;
      if h.model.Some? {
        var invoked;
        r, invoked := ConfigureModel(h.model.value);
        if r.Fail? {
          return;
        }
      }
      if h.query.Some? {
        r := ConfigureEndpointFor(h.query.value);
      }
    }

    /** The step type's own `ApplyContext(inputModel)`. */
    method ApplyContext() returns (r: Outcome)
      requires InSync() && this !in HeadObjects(inputs)
      modifies this`endpointUrl, this`value, this`objectValue
      ensures InSync()
      ensures StepModel.RunHook(stepType.applyHook, old(State()), old(HeadsOf(inputs))).Ok? ==>
                r == Pass && State() == StepModel.RunHook(stepType.applyHook, old(State()), old(HeadsOf(inputs))).value
      ensures StepModel.RunHook(stepType.applyHook, old(State()), old(HeadsOf(inputs))).Err? ==>
                r == Fail(StepModel.RunHook(stepType.applyHook, old(State()), old(HeadsOf(inputs))).error)
    {
      r := RunHook(stepType.applyHook);
    }
  }
}
