/** `APIFlowContext`: the orchestrator that executes step types one after
    another, forwarding each step's response instances to the steps that
    follow, and keeping the chain of responses and the execution statistics. */
module Flow {
  import opened Common
  import opened Payloads
  import opened Metadata
  import opened StepModel
  import opened InputModels
  import opened LegacySteps
  import opened Http

  /** The forwarding map once the key of the executing type is registered:
      a missing key gets an empty list, an existing list is kept. */
  function Register(entries: map<string, seq<ApiContext>>, key: string): (r: map<string, seq<ApiContext>>)
    ensures r.Keys == entries.Keys + {key}
    ensures forall k :: k in entries ==> r[k] == entries[k]
    ensures key !in entries ==> r[key] == []
  {
    if key in entries then entries else entries[key := []]
  }

  /** The guard of the carry-forward: a previous response exists and the
      previous type name is not blank. */
  predicate Carries(previousInput: Option<seq<ApiContext>>, previousTypeName: Option<string>) {
    previousInput.Some? && !IsNullOrWhiteSpace(previousTypeName)
  }

  /** The forwarding map once the previous step's response instances are
      appended, in order, to the previous type's own list. Each append reads
      the list through the indexer, so a previous type whose key has gone
      fails as soon as there is something to append. */
  function CarryForward(entries: map<string, seq<ApiContext>>, previousInput: Option<seq<ApiContext>>, previousTypeName: Option<string>)
    : (r: Result<map<string, seq<ApiContext>>>)
    ensures r.Err? <==> Carries(previousInput, previousTypeName) && |previousInput.value| > 0 && previousTypeName.value !in entries
    ensures r.Err? ==> r.error == KeyNotFound(previousTypeName.value)
    ensures r.Ok? ==> r.value.Keys == entries.Keys
    ensures r.Ok? ==> forall k :: k in entries && !(Carries(previousInput, previousTypeName) && k == previousTypeName.value) ==> r.value[k] == entries[k]
    ensures r.Ok? && Carries(previousInput, previousTypeName) && previousTypeName.value in entries ==>
              r.value[previousTypeName.value] == entries[previousTypeName.value] + previousInput.value
  {
    if !Carries(previousInput, previousTypeName) || |previousInput.value| == 0 then Ok(entries)
    else if previousTypeName.value !in entries then Err(KeyNotFound(previousTypeName.value))
    else Ok(entries[previousTypeName.value := entries[previousTypeName.value] + previousInput.value])
  }

  /** `ObjectValue` of every context, in order. */
  function ObjectValues(ctx: seq<ApiContext>): (vs: seq<Option<Json>>)
    reads ctx
    ensures |vs| == |ctx|
    ensures forall j :: 0 <= j < |ctx| ==> vs[j] == ctx[j].objectValue
  {
    if |ctx| == 0 then [] else [ctx[0].objectValue] + ObjectValues(ctx[1..])
  }

  /** A value the engine treats as a list or an array. */
  predicate IsList(v: Option<Json>) {
    v.Some? && v.value.JList?
  }

  /** `SelectMany(x => (x.ObjectValue as IEnumerable)!.Cast<object>())`: the
      elements of every value, in context order; a value that is not a
      collection fails. */
  function Flatten(vs: seq<Option<Json>>): (r: Result<seq<Json>>)
    ensures r.Err? <==> exists j :: 0 <= j < |vs| && !IsList(vs[j])
    ensures r.Err? ==> r.error == NotEnumerable
  {
    if |vs| == 0 then Ok([])
    else if !IsList(vs[0]) then Err(NotEnumerable)
    else
      match Flatten(vs[1..])
      case Err(e) =>
        assert exists j :: 0 <= j < |vs[1..]| && !IsList(vs[1..][j]);
        var j :| 0 <= j < |vs[1..]| && !IsList(vs[1..][j]);
        assert !IsList(vs[j + 1]);
        Err(e)
      case Ok(rest) =>
        assert forall j :: 1 <= j < |vs| ==> vs[j] == vs[1..][j - 1];
        Ok(vs[0].value.items + rest)
  }

  /** Flattening distributes over concatenation of the contexts. */
  lemma {:induction false} FlattenAppend(a: seq<Option<Json>>, b: seq<Option<Json>>)
    ensures Flatten(a + b).Ok? <==> Flatten(a).Ok? && Flatten(b).Ok?
    ensures Flatten(a + b).Ok? ==> Flatten(a + b).value == Flatten(a).value + Flatten(b).value
    decreases |a|
  {
    if |a| == 0 {
      assert a + b == b;
    } else {
      assert (a + b)[0] == a[0];
      assert (a + b)[1..] == a[1..] + b;
      FlattenAppend(a[1..], b);
      if IsList(a[0]) && Flatten(a + b).Ok? {
        assert Flatten(a + b).value == a[0].value.items + Flatten(a[1..] + b).value;
      }
    }
  }

  /** One context holding a list flattens to that list's elements. */
  lemma FlattenSingle(items: seq<Json>)
    ensures Flatten([Some(JList(items))]) == Ok(items)
  {
    assert [Some(JList(items))][1..] == [];
    assert items + [] == items;
  }

  /** `GetValue<T, TModel>(ctx)` on the contexts' values: when the first value
      is a list (or an array) every value's elements are gathered, in order,
      and the result goes through the codec as `TModel`, which throws when
      the codec cannot read it back; otherwise the first value itself, when
      it is a `TModel` (`fits`), and null when it is not. An empty sequence
      fails at `First()`. */
  function SelectValue(vs: seq<Option<Json>>, modelType: string, fits: Json -> bool, codec: Codec): (r: Result<Option<Json>>)
    ensures r == Err(EmptySequence) <==> |vs| == 0
    ensures |vs| > 0 && !IsList(vs[0]) ==> r.Ok? && (r.value.Some? <==> vs[0].Some? && fits(vs[0].value))
    ensures |vs| > 0 && !IsList(vs[0]) && r.value.Some? ==> r.value == vs[0]
    ensures |vs| > 0 && IsList(vs[0]) && r.Ok? ==> forall j :: 0 <= j < |vs| ==> IsList(vs[j])
    ensures |vs| > 0 && IsList(vs[0]) && (forall j :: 0 <= j < |vs| ==> IsList(vs[j])) ==>
              (r.Ok? <==> codec.deserialize(codec.serialize(Some(JList(Flatten(vs).value))), modelType).Decoded?)
    ensures |vs| > 0 && IsList(vs[0]) && r.Err? ==> r.error == NotEnumerable || r.error == JsonUnreadable
  {
    if |vs| == 0 then Err(EmptySequence)
    else if IsList(vs[0]) then
      match Flatten(vs)
      case Err(e) => Err(e)
      case Ok(items) =>
        match codec.deserialize(codec.serialize(Some(JList(items))), modelType)
        case Unreadable => Err(JsonUnreadable)
        case Decoded(v) => Ok(v)
    else if vs[0].Some? && fits(vs[0].value) then Ok(vs[0])
    else Ok(None)
  }

  /** The list case of `GetValue` hands the codec exactly the concatenation
      of the contexts' lists, and returns what the codec reads back. */
  lemma GetValueGathersLists(vs: seq<Option<Json>>, modelType: string, fits: Json -> bool, codec: Codec)
    requires |vs| > 0 && IsList(vs[0]) && Flatten(vs).Ok?
    requires codec.deserialize(codec.serialize(Some(JList(Flatten(vs).value))), modelType).Decoded?
    ensures SelectValue(vs, modelType, fits, codec) == Ok(codec.deserialize(codec.serialize(Some(JList(Flatten(vs).value))), modelType).value)
  {
  }

  /** What one execution yields before the orchestrator's own fields are
      updated: the response instances and the record of the exchange. */
  datatype Executed = Executed(responses: seq<ApiContext>, info: ExecutionInfo)

  /** The request half of executing a step type: the lifecycle on a new
      instance holding the default value, then the exchange for the URL it
      built, without content because the base `HasBody` is false. */
  function RequestOutcome(t: StepType, override: Option<Hook>, aggregate: bool, send: WireRequest -> Option<HttpResponse>, codec: Codec,
                          heads: map<string, Head>): (r: Result<(StepState, HttpResponse)>)
    ensures r.Ok? ==> Lifecycle(t, override, aggregate, StepState("", Some(t.defaultValue)), heads) == Ok(r.value.0)
    ensures r.Ok? ==> Exchange(send, codec, t, r.value.0.endpoint, false, r.value.0.value) == Ok(r.value.1)
  {
    match Lifecycle(t, override, aggregate, StepState("", Some(t.defaultValue)), heads)
    case Err(e) => Err(e)
    case Ok(st) =>
      match Exchange(send, codec, t, st.endpoint, false, st.value)
      case Err(e) => Err(e)
      case Ok(resp) => Ok((st, resp))
  }

  /** The response half: the value type, the body decoded to it (null gives
      the default value), and the lifecycle, never aggregated, on a new
      instance holding the result. */
  function ResponseOutcome(t: StepType, override: Option<Hook>, resp: HttpResponse, codec: Codec, heads: map<string, Head>)
    : (r: Result<StepState>)
    ensures t.modelType.None? ==> r == Err(IndexOutOfRange)
    ensures t.modelType.Some? && codec.deserialize(resp.body, t.modelType.value).Unreadable? ==> r == Err(JsonUnreadable)
    ensures r.Ok? ==> t.modelType.Some? && codec.deserialize(resp.body, t.modelType.value).Decoded?
    ensures r.Ok? ==> Lifecycle(t, override, false,
                                StepState("", Some(codec.deserialize(resp.body, t.modelType.value).value.GetOr(t.defaultValue))), heads) == r
  {
    if t.modelType.None? then Err(IndexOutOfRange)
    else match codec.deserialize(resp.body, t.modelType.value)
      case Unreadable => Err(JsonUnreadable)
      case Decoded(v) => Lifecycle(t, override, false, StepState("", Some(v.GetOr(t.defaultValue))), heads)
  }

  /** What executing a step type yields, given the heads of the forwarded
      inputs: the response instance's state and the record of the exchange. */
  datatype StepResult = StepResult(response: StepState, info: ExecutionInfo)

  /** Executing a step type: the request half, then the response half, then
      the record of the request's URL, its (absent) content and the
      transport's response. */
  function StepOutcome(t: StepType, override: Option<Hook>, aggregate: bool, send: WireRequest -> Option<HttpResponse>, codec: Codec,
                       heads: map<string, Head>): (r: Result<StepResult>)
    ensures r.Ok? ==> RequestOutcome(t, override, aggregate, send, codec, heads).Ok?
    ensures r.Ok? ==> var (request, resp) := RequestOutcome(t, override, aggregate, send, codec, heads).value;
                      && ResponseOutcome(t, override, resp, codec, heads) == Ok(r.value.response)
                      && r.value.info == Record(codec, request.endpoint, false, request.value, resp)
  {
    match RequestOutcome(t, override, aggregate, send, codec, heads)
    case Err(e) => Err(e)
    case Ok((request, resp)) =>
      match ResponseOutcome(t, override, resp, codec, heads)
      case Err(e) => Err(e)
      case Ok(s) => Ok(StepResult(s, Record(codec, request.endpoint, false, request.value, resp)))
  }

  /** The ways a step type fails whatever the transport answers: a routing
      error first, then no verb attribute or no value type. */
  lemma StepFailures(t: StepType, override: Option<Hook>, aggregate: bool, send: WireRequest -> Option<HttpResponse>, codec: Codec,
                     heads: map<string, Head>)
    ensures ResolveRoute(t.fullName, t.applyAttributes).Err? ==>
              StepOutcome(t, override, aggregate, send, codec, heads) == Err(ResolveRoute(t.fullName, t.applyAttributes).error)
    ensures FindVerbAttribute(t.applyAttributes).None? || t.modelType.None? ==> StepOutcome(t, override, aggregate, send, codec, heads).Err?
  {
    LifecycleExtendsRoute(t, override, aggregate, StepState("", Some(t.defaultValue)), heads);
  }

  /** A successful execution records no request content and a URL that
      starts with the declared route, and keeps the transport's status,
      reason and headers. */
  lemma {:induction false} StepRecordsExchange(t: StepType, override: Option<Hook>, aggregate: bool, send: WireRequest -> Option<HttpResponse>,
                                               codec: Codec, heads: map<string, Head>)
    requires StepOutcome(t, override, aggregate, send, codec, heads).Ok?
    ensures var info := StepOutcome(t, override, aggregate, send, codec, heads).value.info;
            && info.requestContent == None
            && ResolveRoute(t.fullName, t.applyAttributes).Ok?
            && ResolveRoute(t.fullName, t.applyAttributes).value <= info.url
            && var (request, resp) := RequestOutcome(t, override, aggregate, send, codec, heads).value;
               && send(BuildRequest(codec, t, info.url, false, request.value).value) == Some(resp)
               && info.statusCode == resp.status && info.reasonPhrase == resp.reason
               && info.responseHeaders == resp.headers && info.responseContent == resp.body
  {
    LifecycleExtendsRoute(t, override, aggregate, StepState("", Some(t.defaultValue)), heads);
    var (request, resp) := RequestOutcome(t, override, aggregate, send, codec, heads).value;
    assert send(BuildRequest(codec, t, request.endpoint, false, request.value).value) == Some(resp);
  }

  class FlowContext {
    /** `_statistics` */
    var statistics: seq<RegressionStatistic>
    /** `_previousInput` */
    var previousInput: Option<seq<ApiContext>>
    /** `_previousTypeName` */
    var previousTypeName: Option<string>
    /** `Response` */
    var response: Option<seq<ApiContext>>
    /** `Chain` */
    var chain: seq<ApiContext>
    /** `Inputs`: the forwarding map, shared with every instance built here. */
    const inputs: InputModel<ApiContext>

    /** A new context has no statistics, an empty chain, no response and an
        empty forwarding map. */
    constructor ()
      ensures fresh(inputs) && inputs.entries == map[]
      ensures statistics == [] && chain == []
      ensures response == None && previousInput == None && previousTypeName == None
    {
      statistics := [];
      chain := [];
      response := None;
      previousInput := None;
      previousTypeName := None;
      inputs := new InputModel<ApiContext>();
    }

    /** `AppendChainItem<T>()`: exactly one new `T`, built with no base object
        (so holding the default value) and sharing the forwarding map. */
    method AppendChainItem(t: StepType) returns (instances: seq<ApiContext>)
      ensures |instances| == 1 && fresh(instances[0])
      ensures instances[0].stepType == t && instances[0].inputs == inputs
      ensures instances[0].State() == StepState("", Some(t.defaultValue))
      ensures instances[0].InSync() && !instances[0].hasBody
    {
      var item := new ApiContext(t, None, inputs);
      instances := [item];
    }

    /** `ResolveHttpResponse<T>(resp)`: the value type is the first generic
        argument of `T`'s base class (a base class without one fails at that
        index, before the null check is reached); the body is decoded to it,
        which throws on a body the codec cannot read, and exactly one `T` is
        built around the result, sharing the forwarding map. A body that
        decodes to null gives the default value. */
    method ResolveHttpResponse(t: StepType, resp: HttpResponse, codec: Codec) returns (r: Result<seq<ApiContext>>)
      ensures r.Err? <==> t.modelType.None? || codec.deserialize(resp.body, t.modelType.value).Unreadable?
      ensures t.modelType.None? ==> r == Err(IndexOutOfRange)
      ensures t.modelType.Some? && codec.deserialize(resp.body, t.modelType.value).Unreadable? ==> r == Err(JsonUnreadable)
      ensures r.Ok? ==> |r.value| == 1 && fresh(r.value[0])
      ensures r.Ok? ==> r.value[0].stepType == t && r.value[0].inputs == inputs
      ensures r.Ok? ==> r.value[0].State() == StepState("", Some(codec.deserialize(resp.body, t.modelType.value).value.GetOr(t.defaultValue)))
      ensures r.Ok? ==> r.value[0].InSync() && !r.value[0].hasBody
    {
      if t.modelType.None? {
        return Err(IndexOutOfRange);
      }
      var decoded := codec.deserialize(resp.body, t.modelType.value);
      if decoded.Unreadable? {
        return Err(JsonUnreadable);
      }
      var item := new ApiContext(t, decoded.value, inputs);
      r := Ok([item]);
    }

    /** `ExecuteEndpoint<T>(content, out client)`: the verb attribute of `T`'s
        `ApplyContext` selects the verb (none at all throws); the request goes
        to `content.EndpointUrl` and carries `ObjectValue` iff the base
        `HasBody` is set. */
    method ExecuteEndpoint(content: ApiContext, send: WireRequest -> Option<HttpResponse>, codec: Codec)
      returns (r: Result<HttpResponse>)
      ensures r == Exchange(send, codec, content.stepType, content.endpointUrl, content.hasBody, content.objectValue)
    {
      var attribute := FindVerbAttribute(content.stepType.applyAttributes);
      if attribute.None? {
        return Err(VerbMissing(content.stepType.fullName));
      }
      var verb := HttpVerbMethod(attribute.value.typeName);
      var body := if content.hasBody then content.objectValue else None;
      var request := RawRequest(codec, verb, content.endpointUrl, body);
      var answer := send(request);
      if answer.None? {
        return Err(TransportFailure);
      }
      r := Ok(answer.value);
    }

    /** The body of the loop in the private `ApplyContext<T>` for one
        instance, given the mode flags the method computed: the route, the
        client and endpoint hooks, then the callbacks. The local copy of the
        endpoint is what the ref-hook receives, so only the hook's own
        `ConfigureEndpoint<T>` calls reach the instance. */
    method ApplyToInstance(i: ApiContext, override: Option<Hook>, aggregate: bool, applyInstanceContext: bool, applyOverrideContext: bool)
      returns (r: Outcome)
      requires applyOverrideContext == (aggregate || override.Some?)
      requires applyInstanceContext == (aggregate || override.None?)
      requires i.InSync() && i !in HeadObjects(i.inputs)
      modifies i`endpointUrl, i`value, i`objectValue
      ensures i.InSync()
      ensures Lifecycle(i.stepType, override, aggregate, old(i.State()), old(HeadsOf(i.inputs))).Ok? ==>
                r == Pass && i.State() == Lifecycle(i.stepType, override, aggregate, old(i.State()), old(HeadsOf(i.inputs))).value
      ensures Lifecycle(i.stepType, override, aggregate, old(i.State()), old(HeadsOf(i.inputs))).Err? ==>
                r == Fail(Lifecycle(i.stepType, override, aggregate, old(i.State()), old(HeadsOf(i.inputs))).error)
    {
      ghost var heads := HeadsOf(i.inputs);
      ghost var s0 := i.State();
      var ep := i.endpointUrl;
      r := i.ResolveEndpointUrl(i);
      if r.Fail? {
        return;
      }
      ghost var s1 := i.State();
      assert s1 == s0.(endpoint := ResolveRoute(i.stepType.fullName, i.stepType.applyAttributes).value);
      i.ConfigureClient();
      assert HeadsOf(i.inputs) == heads;
      ep, r := i.ConfigureEndpoint(Some(ep));
      if r.Fail? {
        return;
      }
      assert Lifecycle(i.stepType, override, aggregate, s0, heads) == RunCallbacks(i.stepType, override, aggregate, i.State(), heads);
      r := ApplyCallbacks(i, override, aggregate, applyInstanceContext, applyOverrideContext);
    }

    /** The callbacks part of the loop body: the instance's own
        `ApplyContext` when its flag is set and `ObjectValue` is not null,
        then the override when its flag is set and it is not null. */
    method ApplyCallbacks(i: ApiContext, override: Option<Hook>, aggregate: bool, applyInstanceContext: bool, applyOverrideContext: bool)
      returns (r: Outcome)
      requires applyOverrideContext == (aggregate || override.Some?)
      requires applyInstanceContext == (aggregate || override.None?)
      requires i.InSync() && i !in HeadObjects(i.inputs)
      modifies i`endpointUrl, i`value, i`objectValue
      ensures i.InSync()
      ensures RunCallbacks(i.stepType, override, aggregate, old(i.State()), old(HeadsOf(i.inputs))).Ok? ==>
                r == Pass && i.State() == RunCallbacks(i.stepType, override, aggregate, old(i.State()), old(HeadsOf(i.inputs))).value
      ensures RunCallbacks(i.stepType, override, aggregate, old(i.State()), old(HeadsOf(i.inputs))).Err? ==>
                r == Fail(RunCallbacks(i.stepType, override, aggregate, old(i.State()), old(HeadsOf(i.inputs))).error)
    {
      ghost var heads := HeadsOf(i.inputs);
      r := Pass;
      if (applyInstanceContext || aggregate) && i.objectValue.Some? {
        r := i.ApplyContext();
        if r.Fail? {
          return;
        }
      }
      assert HeadsOf(i.inputs) == heads;
      if applyOverrideContext && override.Some? {
        r := i.RunHook(override.value);
      }
    }

    /** The private `ApplyContext<T>(instances, override, aggregate)`: picks
        the mode, then runs the lifecycle on each instance in order, stopping
        at the first error. */
    method ApplyContext(instances: seq<ApiContext>, override: Option<Hook>, aggregate: bool) returns (r: Outcome)
      requires forall j :: 0 <= j < |instances| ==> instances[j].inputs == inputs && instances[j].InSync()
      requires forall j :: 0 <= j < |instances| ==> instances[j] !in HeadObjects(inputs)
      requires forall j, k :: 0 <= j < k < |instances| ==> instances[j] != instances[k]
      modifies instances
      ensures HeadsOf(inputs) == old(HeadsOf(inputs))
      ensures forall j :: 0 <= j < |instances| ==> instances[j].hasBody == old(instances[j].hasBody)
      ensures r.Pass? ==> forall j :: 0 <= j < |instances| ==>
                instances[j].InSync() &&
                Lifecycle(instances[j].stepType, override, aggregate, old(instances[j].State()), HeadsOf(inputs)) == Ok(instances[j].State())
      ensures r.Fail? ==>
                exists j :: 0 <= j < |instances| &&
                  Lifecycle(instances[j].stepType, override, aggregate, old(instances[j].State()), HeadsOf(inputs)) == Err(r.error)
    {
      var applyOverrideContext := false;
      var applyInstanceContext := false;
      if aggregate {
        applyOverrideContext := true;
        applyInstanceContext := true;
      } else if override.Some? {
        applyOverrideContext := true;
      } else {
        applyInstanceContext := true;
      }
      r := Pass;
      for j := 0 to |instances|
        invariant HeadsOf(inputs) == old(HeadsOf(inputs))
        invariant forall k :: 0 <= k < j ==>
                    instances[k].InSync() &&
                    Lifecycle(instances[k].stepType, override, aggregate, old(instances[k].State()), HeadsOf(inputs)) == Ok(instances[k].State())
        invariant forall k :: j <= k < |instances| ==> instances[k].State() == old(instances[k].State()) && instances[k].InSync()
        invariant forall k :: 0 <= k < |instances| ==> instances[k].hasBody == old(instances[k].hasBody)
        invariant r == Pass
      {
        var i := instances[j];
        r := ApplyToInstance(i, override, aggregate, applyInstanceContext, applyOverrideContext);
        if r.Fail? {
          return;
        }
      }
    }

    /** The carry-forward of `Execute<T>`: each of the previous response
        instances is appended, in order, to the previous type's own list. */
    method CarryPrevious() returns (r: Outcome)
      modifies inputs
      ensures CarryForward(old(inputs.entries), previousInput, previousTypeName).Err? ==>
                r == Fail(CarryForward(old(inputs.entries), previousInput, previousTypeName).error) && inputs.entries == old(inputs.entries)
      ensures CarryForward(old(inputs.entries), previousInput, previousTypeName).Ok? ==>
                r == Pass && inputs.entries == CarryForward(old(inputs.entries), previousInput, previousTypeName).value
    {
      r := Pass;
      if previousInput.None? || IsNullOrWhiteSpace(previousTypeName) {
        return;
      }
      var previousType := previousTypeName.value;
      var previous := previousInput.value;
      ghost var start := inputs.entries;
      for j := 0 to |previous|
        invariant j == 0 ==> inputs.entries == start
        invariant j > 0 ==> previousType in start && inputs.entries == start[previousType := start[previousType] + previous[..j]]
      {
        var list := inputs.Get(previousType);
        if list.Err? {
          return Fail(list.error);
        }
        assert previous[..j + 1] == previous[..j] + [previous[j]];
        assert j == 0 ==> start[previousType] + previous[..j] == start[previousType];
        assert list.value == start[previousType] + previous[..j];
        assert list.value + [previous[j]] == start[previousType] + previous[..j + 1];
        inputs.Set(previousType, list.value + [previous[j]]);
      }
      assert previous[..|previous|] == previous;
    }

    /** The request half of `Execute<T>`: build the instance, run the
        lifecycle on it and send its request. Only the new instance changes. */
    method SendRequest(t: StepType, override: Option<Hook>, aggregate: bool, send: WireRequest -> Option<HttpResponse>, codec: Codec,
                       ghost heads: map<string, Head>)
      returns (r: Result<(ApiContext, HttpResponse)>)
      requires heads == HeadsOf(inputs)
      ensures HeadsOf(inputs) == heads
      ensures RequestOutcome(t, override, aggregate, send, codec, heads).Err? ==>
                r == Err(RequestOutcome(t, override, aggregate, send, codec, heads).error)
      ensures RequestOutcome(t, override, aggregate, send, codec, heads).Ok? ==>
                && r.Ok? && fresh(r.value.0) && !r.value.0.hasBody && r.value.0.InSync()
                && r.value.0.State() == RequestOutcome(t, override, aggregate, send, codec, heads).value.0
                && r.value.1 == RequestOutcome(t, override, aggregate, send, codec, heads).value.1
    {
      var instances := AppendChainItem(t);
      var applied := ApplyContext(instances, override, aggregate);
      if applied.Fail? {
        return Err(applied.error);
      }
      var resp := ExecuteEndpoint(instances[0], send, codec);
      if resp.Err? {
        return Err(resp.error);
      }
      r := Ok((instances[0], resp.value));
    }

    /** The response half of `Execute<T>`: resolve the response and run the
        lifecycle on it, always without aggregation. Only the new instance
        changes. */
    method ReceiveResponse(t: StepType, override: Option<Hook>, resp: HttpResponse, codec: Codec, ghost heads: map<string, Head>)
      returns (r: Result<seq<ApiContext>>)
      requires heads == HeadsOf(inputs)
      ensures HeadsOf(inputs) == heads
      ensures ResponseOutcome(t, override, resp, codec, heads).Err? ==> r == Err(ResponseOutcome(t, override, resp, codec, heads).error)
      ensures ResponseOutcome(t, override, resp, codec, heads).Ok? ==>
                && r.Ok? && |r.value| == 1 && fresh(r.value[0])
                && r.value[0].State() == ResponseOutcome(t, override, resp, codec, heads).value
    {
      r := ResolveHttpResponse(t, resp, codec);
      if r.Err? {
        return;
      }
      var applied := ApplyContext(r.value, override, false);
      if applied.Fail? {
        return Err(applied.error);
      }
    }

    /** The request, the response and the record of the exchange, read from
        the request instance once the response has been handled. */
    method RunStep(t: StepType, override: Option<Hook>, aggregate: bool, send: WireRequest -> Option<HttpResponse>, codec: Codec,
                   ghost heads: map<string, Head>)
      returns (r: Result<Executed>)
      requires heads == HeadsOf(inputs)
      ensures HeadsOf(inputs) == heads
      ensures StepOutcome(t, override, aggregate, send, codec, heads).Err? ==>
                r == Err(StepOutcome(t, override, aggregate, send, codec, heads).error)
      ensures StepOutcome(t, override, aggregate, send, codec, heads).Ok? ==>
                && r.Ok? && |r.value.responses| == 1 && fresh(r.value.responses[0])
                && r.value.responses[0].State() == StepOutcome(t, override, aggregate, send, codec, heads).value.response
                && r.value.info == StepOutcome(t, override, aggregate, send, codec, heads).value.info
    {
      var sent := SendRequest(t, override, aggregate, send, codec, heads);
      if sent.Err? {
        return Err(sent.error);
      }
      var (request, resp) := sent.value;
      var respInstance := ReceiveResponse(t, override, resp, codec, heads);
      if respInstance.Err? {
        return Err(respInstance.error);
      }
      var info := Record(codec, request.endpointUrl, request.hasBody, request.objectValue, resp);
      r := Ok(Executed(respInstance.value, info));
    }

    /** The registration and carry-forward of `Execute<T>`: register the
        executing type's key, then carry the previous response forward. */
    method Prepare(key: string) returns (r: Outcome)
      modifies inputs
      ensures var carried := CarryForward(Register(old(inputs.entries), key), previousInput, previousTypeName);
              && (carried.Err? ==> r == Fail(carried.error) && inputs.entries == Register(old(inputs.entries), key))
              && (carried.Ok? ==> r == Pass && inputs.entries == carried.value)
    {
      var present := inputs.ContainsKey(key);
      if !present {
        var added := inputs.Add(key, []);
      }
      assert inputs.entries == Register(old(inputs.entries), key);
      r := CarryPrevious();
    }

    /** The publication of the result in `Execute<T>`: publish the
        response, remember it and its type for the next call, extend the
        chain and append the statistic. The forwarding map and every instance are left alone. */
    method Commit(responses: seq<ApiContext>, key: string, statistic: RegressionStatistic)
      modifies this`response, this`previousInput, this`previousTypeName, this`chain, this`statistics
      ensures response == Some(responses) && previousInput == Some(responses) && previousTypeName == Some(key)
      ensures chain == old(chain) + responses
      ensures statistics == old(statistics) + [statistic]
      ensures HeadsOf(inputs) == old(HeadsOf(inputs))
    {
      response := Some(responses);
      previousInput := response;
      previousTypeName := Some(key);
      chain := chain + responses;
      statistics := statistics + [statistic];
    }

    /** `Execute<T>(override, aggregate)`. `send` is the HTTP client, `codec`
        the JSON library and the two instants the clock readings taken before
        the request and after the response. */
    method Execute(t: StepType, override: Option<Hook>, aggregate: bool,
                   send: WireRequest -> Option<HttpResponse>, codec: Codec, requestTime: int, responseTime: int)
      returns (r: Outcome)
      modifies this, inputs
      ensures var carried := CarryForward(Register(old(inputs.entries), TypeKey(t.fullName)), old(previousInput), old(previousTypeName));
              && (carried.Err? ==> r == Fail(carried.error) && inputs.entries == Register(old(inputs.entries), TypeKey(t.fullName)))
              && (carried.Ok? ==> inputs.entries == carried.value)
      ensures r.Fail? ==>
                && chain == old(chain) && statistics == old(statistics) && response == old(response)
                && previousInput == old(previousInput) && previousTypeName == old(previousTypeName)
      ensures r.Pass? ==>
                && response.Some? && |response.value| == 1 && fresh(response.value[0])
                && previousInput == response && previousTypeName == Some(TypeKey(t.fullName))
                && chain == old(chain) + response.value
                && |statistics| == |old(statistics)| + 1 && statistics[..|old(statistics)|] == old(statistics)
      ensures r.Pass? ==>
                && statistics[|old(statistics)|].requestTimestamp == requestTime
                && statistics[|old(statistics)|].responseTimestamp == responseTime
      ensures CarryForward(Register(old(inputs.entries), TypeKey(t.fullName)), old(previousInput), old(previousTypeName)).Ok? ==>
                (r.Pass? <==> StepOutcome(t, override, aggregate, send, codec, HeadsOf(inputs)).Ok?)
      ensures CarryForward(Register(old(inputs.entries), TypeKey(t.fullName)), old(previousInput), old(previousTypeName)).Ok? &&
              StepOutcome(t, override, aggregate, send, codec, HeadsOf(inputs)).Err? ==>
                r == Fail(StepOutcome(t, override, aggregate, send, codec, HeadsOf(inputs)).error)
      ensures r.Pass? ==>
                && StepOutcome(t, override, aggregate, send, codec, HeadsOf(inputs)).Ok?
                && response.value[0].State() == StepOutcome(t, override, aggregate, send, codec, HeadsOf(inputs)).value.response
                && statistics[|old(statistics)|].info == StepOutcome(t, override, aggregate, send, codec, HeadsOf(inputs)).value.info
      ensures FindVerbAttribute(t.applyAttributes).None? || t.modelType.None? || ResolveRoute(t.fullName, t.applyAttributes).Err? ==> r.Fail?
    {
      var fullName := TypeKey(t.fullName);
      r := Prepare(fullName);
      if r.Fail? {
        return;
      }
      ghost var heads := HeadsOf(inputs);
      StepFailures(t, override, aggregate, send, codec, heads);
      var requestTimestamp := requestTime;
      var step := RunStep(t, override, aggregate, send, codec, heads);
      if step.Err? {
        return Fail(step.error);
      }
      Commit(step.value.responses, fullName, RegressionStatistic(requestTimestamp, responseTime, step.value.info));
    }

    /** `GetValue<T, TModel>(ctx)` */
    function GetValue(ctx: seq<ApiContext>, modelType: string, fits: Json -> bool, codec: Codec): (r: Result<Option<Json>>)
      reads ctx
      ensures r == Err(EmptySequence) <==> |ctx| == 0
      ensures |ctx| > 0 && !IsList(ctx[0].objectValue) ==>
                r.Ok? && (r.value.Some? <==> ctx[0].objectValue.Some? && fits(ctx[0].objectValue.value))
      ensures |ctx| > 0 && !IsList(ctx[0].objectValue) && r.Ok? && r.value.Some? ==> r.value == ctx[0].objectValue
      ensures |ctx| > 0 && IsList(ctx[0].objectValue) && r.Ok? ==> forall j :: 0 <= j < |ctx| ==> IsList(ctx[j].objectValue)
      ensures |ctx| > 0 && IsList(ctx[0].objectValue) && r.Err? ==> r.error == NotEnumerable || r.error == JsonUnreadable
      ensures r == SelectValue(ObjectValues(ctx), modelType, fits, codec)
    {
      SelectValue(ObjectValues(ctx), modelType, fits, codec)
    }
  }
}
