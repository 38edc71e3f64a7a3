/** The step types of the example project and of the test suite, written as
    step type descriptors, and what the engine does with them. A `User` is
    an object with an `Id`; `UserContext` fetches the list of users and
    `UserInformationContext` fetches one user's information, binding the
    first user's `Id` into its URL and into its own value. */
module Scenarios {
  import opened Common
  import opened Payloads
  import opened Metadata
  import opened StepModel
  import opened InputModels
  import opened LegacySteps
  import opened Http
  import opened Flow

  const UsersRoute := "https://aef3c493-6ff3-47a2-be7f-150688405f7e.mock.pstmn.io/Users"
  const UserInformationRoute := "https://aef3c493-6ff3-47a2-be7f-150688405f7e.mock.pstmn.io/UserInformation"
  const UserContextName := "ExampleAPIFlow_Project.Contexts.UserContext"
  const UserInformationContextName := "ExampleAPIFlow_Project.Contexts.UserInformationContext"

  /** `new User { Id = id }` */
  function UserJson(id: int): Json {
    JObject(map["Id" := JNum(id)])
  }

  /** `new UserInformation()` with its `Id` and `Email` set. */
  function UserInformationJson(id: int, email: string): Json {
    JObject(map["Id" := JNum(id), "Email" := JStr(email)])
  }

  /** `u.Value?[0].Id ?? 0` on a forwarded `UserContext` value: the first
      user's `Id`, or 0 when there is no list or no such field. On an empty
      list the source's indexer throws (`?? 0` only guards a null list);
      this function reads 0 there instead. */
  function FirstUserId(v: Option<Json>): int {
    if v.Some? && v.value.JList? && |v.value.items| > 0
       && v.value.items[0].JObject? && "Id" in v.value.items[0].fields && v.value.items[0].fields["Id"].JNum?
    then v.value.items[0].fields["Id"].n
    else 0
  }

  /** `o.Id = id` on a `UserInformation` object. */
  function SetId(o: Json, id: int): Json {
    if o.JObject? then JObject(o.fields["Id" := JNum(id)]) else o
  }

  /** `ConfigureEndpoint<UserContext>("Id", u => u.Value[0].Id)` */
  const UserIdQuery := QueryBinding(Some(UserContextName), "Id", (v: Option<Json>) => DecimalString(FirstUserId(v)))

  /** `ConfigureModel<UserContext>((u, o) => o.Id = u.Value[0].Id)` */
  const UserIdModel := ModelBinding(Some(UserContextName), Some((u: Option<Json>, o: Json) => SetId(o, FirstUserId(u))))

  const HttpGet := Attribute(HttpGetAttribute, [])

  /** `UserContext`: `[HttpGet]`, `[Route(.../Users)]`, empty hooks, value
      type `List<User>`. */
  const UserContextType := StepType(
    Some(UserContextName),
    [HttpGet, Attribute(RouteAttribute, [Some(UsersRoute)])],
    Some("List<User>"),
    JList([]),
    None,
    Hook(None, None))

  /** `UserInformationContext` with the given route template: `[HttpGet]`,
      `[Route(route)]`, an endpoint override adding the user id, and an
      `ApplyContext` that copies the user id into the value and adds it to
      the URL. */
  function UserInformationType(route: string): (t: StepType)
    ensures t.endpointHook == Some(UserIdQuery) && t.applyHook == Hook(Some(UserIdModel), Some(UserIdQuery))
  {
    StepType(
      Some(UserInformationContextName),
      [HttpGet, Attribute(RouteAttribute, [Some(route)])],
      Some("UserInformation"),
      UserInformationJson(0, ""),
      Some(UserIdQuery),
      Hook(Some(UserIdModel), Some(UserIdQuery)))
  }

  const UserInformationContextType := UserInformationType(UserInformationRoute)

  /** The test suite's variant without any `[Route]`. */
  const BadConfigurationType := UserInformationContextType.(
    fullName := Some("APIFlow.Tests.Contexts.UserInformationContext_BadConfiguration"),
    applyAttributes := [HttpGet])

  /** The test suite's variant whose `[Route()]` has no argument. */
  const MissingRouteParameterType := UserInformationContextType.(
    fullName := Some("APIFlow.Tests.Contexts.UserInformationContext_MissingRouteParameter"),
    applyAttributes := [HttpGet, Attribute(RouteAttribute, [])])

  /** The forwarding map's heads after a `UserContext` holding one user. */
  function OneUserForwarded(id: int): map<string, Head> {
    map[UserContextName := First(Some(JList([UserJson(id)])))]
  }

  /** A verb attribute followed by a `[Route]`: the route is the second. */
  lemma RouteAfterVerb(verb: Attribute, route: Attribute)
    requires verb.typeName == HttpGetAttribute && route.typeName == RouteAttribute
    ensures FirstOf([verb, route], {RouteAttribute}) == Some(1)
  {
    assert HttpGetAttribute != RouteAttribute by {
      assert |HttpGetAttribute| != |RouteAttribute|;
    }
    assert [verb, route][1..] == [route];
  }

  /** The routes are read from the `[Route]` attributes. */
  lemma RoutesResolve(route: string)
    ensures ResolveRoute(UserContextType.fullName, UserContextType.applyAttributes) == Ok(UsersRoute)
    ensures ResolveRoute(UserInformationType(route).fullName, UserInformationType(route).applyAttributes) == Ok(route)
  {
    RouteAfterVerb(HttpGet, Attribute(RouteAttribute, [Some(UsersRoute)]));
    RouteAfterVerb(HttpGet, Attribute(RouteAttribute, [Some(route)]));
  }

  /** `ApplyContext` of a `UserInformationContext` with one forwarded user:
      the user's id is appended to the URL as `Id`, and becomes the value's
      `Id`. */
  lemma ForwardFeedBindsUserId(url: string, id: int)
    ensures RunHook(Hook(Some(UserIdModel), Some(UserIdQuery)), StepState(url, Some(UserInformationJson(0, ""))), OneUserForwarded(id))
            == Ok(StepState(AppendQuery(url, "Id", DecimalString(id)), Some(UserInformationJson(id, ""))))
  {
    assert FirstUserId(Some(JList([UserJson(id)]))) == id;
    assert SetId(UserInformationJson(0, ""), id) == UserInformationJson(id, "");
  }

  /** `ResolveEndpointUrl` then `ApplyContext`, as the forward-feed tests
      call them: the URL is the route, `?Id=` and the user's id. */
  lemma ForwardFeedUrl(route: string, id: int)
    requires '?' !in route
    ensures RunHook(UserInformationType(route).applyHook, StepState(route, Some(UserInformationJson(0, ""))), OneUserForwarded(id))
            == Ok(StepState(route + "?Id=" + DecimalString(id), Some(UserInformationJson(id, ""))))
  {
    ForwardFeedBindsUserId(route, id);
    AppendQueryForms(route, "Id", DecimalString(id));
    assert route + "?" + "Id" + "=" == route + "?Id=";
  }

  /** The whole lifecycle the orchestrator runs on a new
      `UserInformationContext` with one forwarded user: the endpoint override
      and the instance's `ApplyContext` both append the id, so the URL
      carries it twice, the second time after '&'. */
  lemma LifecycleAddsUserIdTwice(route: string, id: int)
    requires '?' !in route
    ensures Lifecycle(UserInformationType(route), None, false, StepState("", Some(UserInformationJson(0, ""))), OneUserForwarded(id))
            == Ok(StepState(route + "?Id=" + DecimalString(id) + "&Id=" + DecimalString(id), Some(UserInformationJson(id, ""))))
  {
    var t := UserInformationType(route);
    var heads := OneUserForwarded(id);
    var d := DecimalString(id);
    var start := StepState(route, Some(UserInformationJson(0, "")));
    RoutesResolve(route);
    var once := EndpointUrlAfterOverride(route, id);
    ForwardFeedBindsUserId(once, id);
    AppendQueryForms(once, "Id", d);
    assert once + "&" + "Id" + "=" == once + "&Id=";
    assert RunCallbacks(t, None, false, StepState(once, start.value), heads)
           == Ok(StepState(once + "&Id=" + d, Some(UserInformationJson(id, ""))));
  }

  /** The endpoint override of `UserInformationContext` opens the query with
      the user's id. */
  lemma EndpointUrlAfterOverride(route: string, id: int) returns (url: string)
    requires '?' !in route
    ensures url == route + "?Id=" + DecimalString(id) && '?' in url
    ensures EndpointHook(UserInformationType(route), StepState(route, Some(UserInformationJson(0, ""))), OneUserForwarded(id))
            == Ok(StepState(url, Some(UserInformationJson(0, ""))))
  {
    url := AppendQuery(route, "Id", DecimalString(id));
    AppendQueryForms(route, "Id", DecimalString(id));
    assert route + "?" + "Id" + "=" == route + "?Id=";
  }

  /** An override replaces the `ApplyContext` body: with an empty override
      the id is added once, by the endpoint override, and the value keeps
      its default. */
  lemma EmptyOverrideAddsUserIdOnce(route: string, id: int)
    requires '?' !in route
    ensures Lifecycle(UserInformationType(route), Some(Hook(None, None)), false, StepState("", Some(UserInformationJson(0, ""))), OneUserForwarded(id))
            == Ok(StepState(route + "?Id=" + DecimalString(id), Some(UserInformationJson(0, ""))))
  {
    RoutesResolve(route);
    var once := EndpointUrlAfterOverride(route, id);
    assert RunCallbacks(UserInformationType(route), Some(Hook(None, None)), false, StepState(once, Some(UserInformationJson(0, ""))), OneUserForwarded(id))
           == Ok(StepState(once, Some(UserInformationJson(0, ""))));
  }

  /** Without a `[Route]` the route lookup fails, and with `[Route()]` it
      fails differently; both before any hook runs. */
  lemma RouteFailures(st: StepState, heads: map<string, Head>)
    ensures Lifecycle(BadConfigurationType, None, false, st, heads) == Err(RouteMissing(BadConfigurationType.fullName))
    ensures Lifecycle(MissingRouteParameterType, None, false, st, heads) == Err(RouteValueMissing(MissingRouteParameterType.fullName))
  {
    assert BadConfigurationType.applyAttributes[1..] == [];
    assert HttpGetAttribute != RouteAttribute by {
      assert |HttpGetAttribute| != |RouteAttribute|;
    }
    RouteAfterVerb(HttpGet, Attribute(RouteAttribute, []));
  }

  /** `ConfigureModel<UserInformationContext>` when only `UserContext`
      instances were forwarded fails with a model-resolution error. */
  lemma ConfigureModelMissingInput(id: int, st: StepState)
    ensures BindModel(ModelBinding(Some(UserInformationContextName), UserIdModel.bind), st, OneUserForwarded(id))
            == Err(ModelMissing(UserInformationContextName))
  {
  }

  /** The users step has no hooks, so a successful execution of it records
      a request sent to its route. */
  lemma UsersStepUrl(override: Option<Hook>, aggregate: bool, send: WireRequest -> Option<HttpResponse>, codec: Codec,
                     heads: map<string, Head>)
    requires override.None?
    requires StepOutcome(UserContextType, override, aggregate, send, codec, heads).Ok?
    ensures StepOutcome(UserContextType, override, aggregate, send, codec, heads).value.info.url == UsersRoute
  {
    RoutesResolve("");
  }

  /** `new APIFlowContext().Execute<UserContext>().Execute<UserInformationContext>()`:
      when both calls return, the chain holds the two responses in order,
      two statistics were recorded, the first at the users route, and the
      forwarding map has a key for each type. */
  method EndToEnd(send: WireRequest -> Option<HttpResponse>, codec: Codec, clock: seq<int>)
    returns (flow: FlowContext, first: Outcome, second: Outcome)
    requires |clock| == 4
    ensures fresh(flow) && fresh(flow.inputs)
    ensures first.Fail? ==> second == first && flow.chain == [] && flow.statistics == []
    ensures first.Pass? && second.Pass? ==>
              && |flow.chain| == 2 && |flow.statistics| == 2
              && flow.response == Some(flow.chain[1..]) && flow.previousTypeName == Some(UserInformationContextName)
              && flow.statistics[0].info.url == UsersRoute
              && flow.statistics[0].requestTimestamp == clock[0] && flow.statistics[1].responseTimestamp == clock[3]
              && flow.inputs.entries.Keys == {UserContextName, UserInformationContextName}
  {
    flow := new FlowContext();
    first := flow.Execute(UserContextType, None, false, send, codec, clock[0], clock[1]);
    if first.Fail? {
      return flow, first, first;
    }
    assert |flow.statistics| == 1;
    ghost var statistic1 := flow.statistics[0];
    UsersStepUrl(None, false, send, codec, HeadsOf(flow.inputs));
    assert flow.inputs.entries == Register(map[], UserContextName);
    ghost var registered := Register(flow.inputs.entries, UserInformationContextName);
    assert registered.Keys == {UserContextName, UserInformationContextName};
    ghost var carried := CarryForward(registered, flow.previousInput, flow.previousTypeName);
    assert carried.Ok? && carried.value.Keys == registered.Keys;
    second := flow.Execute(UserInformationContextType, None, false, send, codec, clock[2], clock[3]);
    if second.Pass? {
      assert |flow.statistics| == 2 && flow.statistics[1].responseTimestamp == clock[3];
      assert flow.statistics[0] == statistic1;
      assert flow.chain[1..] == flow.response.value;
    }
  }
}
