/** What both revisions of the step class (`ApiContext`) share: the step type
    descriptor that stands in for reflection, the hooks a step type's code
    runs, and the lifecycle the orchestrator drives, as functions on a step's
    observable state. The two classes are proved against these functions. */
module StepModel {
  import opened Common
  import opened Payloads
  import opened Metadata

  /** A call `ConfigureEndpoint<T>(name, callback)` in a step type's code:
      the type `T` whose forwarded instances are read (its `FullName`), the
      query parameter's name, and the callback applied to the first forwarded
      instance's value, already rendered as the interpolated string. */
  datatype QueryBinding = QueryBinding(inputType: Option<string>, name: string, render: Option<Json> -> string)

  /** A call `ConfigureModel<T>(callback)`: the callback (`None` when null)
      receives the first forwarded instance's value and mutates the step's
      own value object in place; `bind` returns that object's new state. */
  datatype ModelBinding = ModelBinding(inputType: Option<string>, bind: Option<(Option<Json>, Json) -> Json>)

  /** The body of a step's `ApplyContext`, or of an override callback: an
      optional `ConfigureModel<T>` followed by an optional `ConfigureEndpoint<T>`. */
  datatype Hook = Hook(model: Option<ModelBinding>, query: Option<QueryBinding>)

  /** Everything the engine learns about a step type `T` by reflection. */
  datatype StepType = StepType(
    fullName: Option<string>,          // typeof(T).FullName
    applyAttributes: seq<Attribute>,   // custom attributes of T.ApplyContext
    modelType: Option<string>,         // generic argument of T's base class
    defaultValue: Json,                // Activator.CreateInstance<TBase>()
    endpointHook: Option<QueryBinding>,// what an override of ConfigureEndpoint(ref ...) adds
    applyHook: Hook)                   // the body of T.ApplyContext

  /** The forwarding map's key for a type: `typeof(T).FullName ?? "Unknown"`. */
  function TypeKey(fullName: Option<string>): string {
    fullName.GetOr("Unknown")
  }

  /** What `GetInput<T>()[0]` sees for a key that is present: nothing, or the
      value of the oldest forwarded instance. */
  datatype Head = NoInstances | First(value: Option<Json>)

  /** The part of a step instance the lifecycle changes: its endpoint URL and
      its value (`ObjectValue`, kept equal to `Value`). */
  datatype StepState = StepState(endpoint: string, value: Option<Json>)

  /** `GetInput<T>()` followed by `[0]`: a missing key is a model-resolution
      error, an empty list an index error, otherwise the oldest instance. */
  function ForwardedInput(heads: map<string, Head>, inputType: Option<string>): (r: Result<Option<Json>>)
    ensures TypeKey(inputType) !in heads <==> r == Err(ModelMissing(TypeKey(inputType)))
    ensures r == Err(IndexOutOfRange) <==> TypeKey(inputType) in heads && heads[TypeKey(inputType)] == NoInstances
    ensures r.Ok? <==> TypeKey(inputType) in heads && heads[TypeKey(inputType)].First?
    ensures r.Ok? ==> heads[TypeKey(inputType)] == First(r.value)
  {
    var key := TypeKey(inputType);
    if key !in heads then Err(ModelMissing(key))
    else match heads[key]
      case NoInstances => Err(IndexOutOfRange)
      case First(v) => Ok(v)
  }

  /** The default `ConfigureEndpoint(ref endpoint, ...)`: null becomes "". */
  function DefaultConfigureEndpoint(endpoint: Option<string>): (ep: string)
    ensures endpoint.Some? ==> ep == endpoint.value
    ensures endpoint.None? ==> ep == ""
  {
    endpoint.GetOr("")
  }

  /** `EndpointUrl += (has '?' ? '&' : '?') + name + "=" + value`. */
  function AppendQuery(url: string, name: string, value: string): (r: string)
    ensures |r| == |url| + |name| + |value| + 2
    ensures url <= r
    ensures r[|url|] == '&' <==> '?' in url
    ensures r[|url|] == '?' <==> '?' !in url
    ensures r[|url| + 1..] == name + "=" + value
    ensures '?' in r
  {
    var r := url + [if '?' in url then '&' else '?'] + name + "=" + value;
    assert r[|url|] in r;
    r
  }

  /** The two forms of an appended parameter: the first opens the query
      with '?', every later one is joined with '&'. */
  lemma AppendQueryForms(url: string, name: string, value: string)
    ensures '?' !in url ==> AppendQuery(url, name, value) == url + "?" + name + "=" + value
    ensures '?' in url ==> AppendQuery(url, name, value) == url + "&" + name + "=" + value
  {
    var sep := if '?' in url then '&' else '?';
    assert url + [sep] + name + "=" + value == url + ([sep] + name + "=" + value);
  }

  /** `ConfigureEndpoint<T>(name, callback)` on a step's state. */
  function BindQuery(q: QueryBinding, st: StepState, heads: map<string, Head>): (r: Result<StepState>)
    ensures r.Ok? ==> st.endpoint <= r.value.endpoint && r.value.value == st.value
    ensures r.Err? ==> r == Err(ModelMissing(TypeKey(q.inputType))) || r == Err(IndexOutOfRange)
  {
    match ForwardedInput(heads, q.inputType)
    case Err(e) => Err(e)
    case Ok(input) => Ok(st.(endpoint := AppendQuery(st.endpoint, q.name, q.render(input))))
  }

  /** `ConfigureModel<T>(callback)` on a step's state: the callback can only
      mutate an existing value object, so a null value stays null. */
  function BindModel(b: ModelBinding, st: StepState, heads: map<string, Head>): (r: Result<StepState>)
    ensures r.Ok? ==> r.value.endpoint == st.endpoint && (r.value.value.Some? <==> st.value.Some?)
    ensures r.Err? ==> r == Err(ModelMissing(TypeKey(b.inputType))) || r == Err(IndexOutOfRange)
  {
    match ForwardedInput(heads, b.inputType)
    case Err(e) => Err(e)
    case Ok(input) =>
      if b.bind.Some? && st.value.Some? then Ok(st.(value := Some(b.bind.value(input, st.value.value))))
      else Ok(st)
  }

  /** A hook's body: `ConfigureModel<T>` first, then `ConfigureEndpoint<T>`. */
  function RunHook(h: Hook, st: StepState, heads: map<string, Head>): (r: Result<StepState>)
    ensures r.Ok? ==> st.endpoint <= r.value.endpoint && (r.value.value.Some? <==> st.value.Some?)
  {
    var afterModel := if h.model.Some? then BindModel(h.model.value, st, heads) else Ok(st);
    match afterModel
    case Err(e) => Err(e)
    case Ok(s) => if h.query.Some? then BindQuery(h.query.value, s, heads) else Ok(s)
  }

  /** The step type's `ConfigureEndpoint(ref ep, ...)`: the base part only
      touches the local copy `ep`; an override's `ConfigureEndpoint<T>` call
      appends to the instance's own endpoint. */
  function EndpointHook(t: StepType, st: StepState, heads: map<string, Head>): (r: Result<StepState>)
    ensures t.endpointHook.None? ==> r == Ok(st)
  {
    if t.endpointHook.Some? then BindQuery(t.endpointHook.value, st, heads) else Ok(st)
  }

  /** Which callbacks the private `ApplyContext<T>` runs on an instance:
      `aggregate` turns on both flags, otherwise a supplied override is chosen
      over the instance's own `ApplyContext`; the instance hook also needs a
      non-null `ObjectValue`, the override a non-null delegate. */
  function Callbacks(aggregate: bool, hasOverride: bool, valuePresent: bool): (r: (bool, bool))
    ensures r.1 <==> hasOverride
    ensures r.0 <==> valuePresent && (aggregate || !hasOverride)
  {
    var applyOverride := aggregate || hasOverride;
    var applyInstance := aggregate || !hasOverride;
    ((applyInstance || aggregate) && valuePresent, applyOverride && hasOverride)
  }

  /** One pass of the private `ApplyContext<T>` over an instance:
      `ResolveEndpointUrl`, `ConfigureClient` (no effect), `ConfigureEndpoint`,
      then the callbacks `Callbacks` selects, instance hook before override. */
  function Lifecycle(t: StepType, override: Option<Hook>, aggregate: bool, st: StepState, heads: map<string, Head>): (r: Result<StepState>)
  {
    match ResolveRoute(t.fullName, t.applyAttributes)
    case Err(e) => Err(e)
    case Ok(route) =>
      match EndpointHook(t, st.(endpoint := route), heads)
      case Err(e) => Err(e)
      case Ok(s) => RunCallbacks(t, override, aggregate, s, heads)
  }

  /** The callbacks part of the lifecycle: the instance's own hook, then
      the override, as `Callbacks` selects them. */
  function RunCallbacks(t: StepType, override: Option<Hook>, aggregate: bool, s: StepState, heads: map<string, Head>): (r: Result<StepState>)
    ensures r.Ok? ==> s.endpoint <= r.value.endpoint && (r.value.value.Some? <==> s.value.Some?)
  {
    var (runInstance, runOverride) := Callbacks(aggregate, override.Some?, s.value.Some?);
    var afterInstance := if runInstance then RunHook(t.applyHook, s, heads) else Ok(s);
    match afterInstance
    case Err(e) => Err(e)
    case Ok(s') =>
      if runOverride then
        var s'' := RunHook(override.value, s', heads);
        if s''.Ok? then PrefixTransitive(s.endpoint, s'.endpoint, s''.value.endpoint); s''
        else s''
      else Ok(s')
  }

  /** A successful lifecycle leaves an endpoint that starts with the declared
      route and keeps the value's presence; a routing error is reported before
      anything else. */
  lemma {:induction false} LifecycleExtendsRoute(t: StepType, override: Option<Hook>, aggregate: bool, st: StepState, heads: map<string, Head>)
    ensures ResolveRoute(t.fullName, t.applyAttributes).Err? ==>
              Lifecycle(t, override, aggregate, st, heads) == Err(ResolveRoute(t.fullName, t.applyAttributes).error)
    ensures Lifecycle(t, override, aggregate, st, heads).Ok? ==>
              && ResolveRoute(t.fullName, t.applyAttributes).Ok?
              && ResolveRoute(t.fullName, t.applyAttributes).value <= Lifecycle(t, override, aggregate, st, heads).value.endpoint
              && (Lifecycle(t, override, aggregate, st, heads).value.value.Some? <==> st.value.Some?)
  {
    match ResolveRoute(t.fullName, t.applyAttributes)
    case Err(e) =>
    case Ok(route) =>
      match EndpointHook(t, st.(endpoint := route), heads)
      case Err(e) =>
      case Ok(s) =>
        var r := RunCallbacks(t, override, aggregate, s, heads);
        if r.Ok? {
          PrefixTransitive(route, s.endpoint, r.value.endpoint);
        }
  }

  lemma PrefixTransitive(a: string, b: string, c: string)
    requires a <= b && b <= c
    ensures a <= c
  {
    assert b[..|a|] == a;
    assert c[..|b|] == b;
    assert c[..|a|] == c[..|b|][..|a|];
  }

  /** A forwarded input the endpoint hook needs but no earlier step produced
      is a model-resolution error in every mode, whatever the callbacks. */
  lemma MissingInputFailsInEveryMode(t: StepType, override: Option<Hook>, aggregate: bool, st: StepState, heads: map<string, Head>)
    requires ResolveRoute(t.fullName, t.applyAttributes).Ok?
    requires t.endpointHook.Some? && TypeKey(t.endpointHook.value.inputType) !in heads
    ensures Lifecycle(t, override, aggregate, st, heads) == Err(ModelMissing(TypeKey(t.endpointHook.value.inputType)))
  {
  }

  /** In the default mode a supplied override replaces the instance's own
      `ApplyContext`: the latter's body makes no difference. */
  lemma OverrideReplacesInstanceHook(t: StepType, o: Hook, other: Hook, st: StepState, heads: map<string, Head>)
    ensures Lifecycle(t, Some(o), false, st, heads) == Lifecycle(t.(applyHook := other), Some(o), false, st, heads)
  {
  }

  /** With a null value the instance's own `ApplyContext` never runs. */
  lemma NullValueSkipsInstanceHook(t: StepType, override: Option<Hook>, aggregate: bool, other: Hook, st: StepState, heads: map<string, Head>)
    requires st.value.None?
    ensures Lifecycle(t, override, aggregate, st, heads) == Lifecycle(t.(applyHook := other), override, aggregate, st, heads)
  {
    match ResolveRoute(t.fullName, t.applyAttributes)
    case Err(e) =>
    case Ok(route) =>
      var r := EndpointHook(t, st.(endpoint := route), heads);
      assert r.Ok? ==> r.value.value.None?;
  }

  /** In aggregate mode with a value and an override, both hooks run, the
      instance's own first. */
  lemma AggregateRunsBoth(t: StepType, o: Hook, st: StepState, heads: map<string, Head>, s: StepState)
    requires ResolveRoute(t.fullName, t.applyAttributes).Ok?
    requires EndpointHook(t, st.(endpoint := ResolveRoute(t.fullName, t.applyAttributes).value), heads) == Ok(s)
    requires s.value.Some?
    ensures Lifecycle(t, Some(o), true, st, heads) ==
              match RunHook(t.applyHook, s, heads)
              case Err(e) => Err(e)
              case Ok(s') => RunHook(o, s', heads)
  {
  }

  /** Without an override, aggregate mode changes nothing. */
  lemma AggregateWithoutOverride(t: StepType, st: StepState, heads: map<string, Head>)
    ensures Lifecycle(t, None, true, st, heads) == Lifecycle(t, None, false, st, heads)
  {
  }
}
