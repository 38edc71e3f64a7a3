# APIFlow in Dafny

APIFlow chains HTTP API calls into a workflow. Each call is a *step type*, a subclass of `ApiContext`. On its `ApplyContext` method a step type declares:

- an HTTP verb attribute (`[HttpGet]`, `[HttpPost]`, …);
- a `[Route]` attribute.

Its code may bind values forwarded from earlier steps into its own URL (`ConfigureEndpoint<T>`) and into its own payload (`ConfigureModel<T>`).

The orchestrator `APIFlowContext.Execute<T>()` does the following for each step:

1. It registers the type's key in the forwarding map (`APIFlowInputModel`).
2. It appends the previous step's responses to that step's list.
3. It builds a `T`, runs its lifecycle (route, client hook, endpoint hook, instance and override callbacks) and sends its request.
4. It decodes the response into a new `T` and runs the lifecycle on that too.
5. It records an execution statistic and makes the response the input of the next step.

The newer revision routes execution through a data source, `HTTPDataExtender`. `TypeExtensions.Shuffle` is a Fisher–Yates shuffle.

## How the model is organised

The model is split into these modules:

| module | models |
|---|---|
| `Common` | the error kinds |
| `Payloads` | JSON values, and the JSON library as a `Codec` parameter |
| `Metadata` | reflection over attributes |
| `StepModel` | the lifecycle as pure functions on a step's state |
| `InputModels` | the forwarding map, as a class over a map |
| `LegacySteps` | `Models/ApiContext.cs`, the class the orchestrator uses |
| `Steps` | `ApiContext.cs`, the class the data extender uses |
| `Http` | the request, the transport and the execution record |
| `Flow` | the orchestrator |
| `DataExtenders` | `HTTPDataExtender` |
| `TypeExtensions` | the shuffle |
| `Scenarios` | the example project's and the test suite's step types, and what the engine does with them |

Both step classes are classes whose methods change their fields in place. Each method is proved against the `StepModel` function it implements. The orchestrator's `Execute` is proved against `Register`, `CarryForward` and `StepOutcome`, which are functions of the old state. `StepOutcome` composes the request half (`RequestOutcome`) and the response half (`ResponseOutcome`) of a step.

Reflection becomes a `StepType` descriptor. It holds:

- the type's full name;
- the attributes on `ApplyContext`;
- the value type;
- the default value;
- the hooks the type's code runs.

A hook is an optional `ConfigureModel<T>` followed by an optional `ConfigureEndpoint<T>`, which covers every step type in the example project and the tests.

The following parts of the outside world are parameters:

- the HTTP client: a function from a wire request to an optional response, where `None` is a transport failure;
- the JSON library (`Codec`);
- the clock: two instants per execution;
- the random generator: a sequence of draws.

## Model

| member | source | states |
|---|---|---|
| Metadata.FirstOf | src/APIFlow/APIFlowContext.cs:88-100 | the index returned holds one of the wanted attribute types and no earlier index does; `None` iff no attribute has a wanted type |
| Metadata.FindVerbAttribute | src/APIFlow/APIFlowContext.cs:88-100 | no verb attribute is found iff none of the five verb attribute types is on `ApplyContext`; a found one is the first verb attribute in declaration order |
| Metadata.HttpVerbMethod | src/APIFlow/APIFlowContext.cs:130-154 | each of POST, PUT, PATCH and DELETE is chosen iff its attribute name is given; GET is chosen for `HttpGetAttribute` and for every name outside the five (the `default` label) |
| Metadata.ResolveRoute | src/APIFlow/Models/ApiContext.cs:42-62 | a failure is one of the two routing errors naming the owner type |
| Metadata.RouteOutcomes | src/APIFlow/Models/ApiContext.cs:42-62 | RouteMissing iff there is no `[Route]`; RouteValueMissing iff the first `[Route]` has no argument; otherwise the route is that attribute's first argument, with null read as "" |
| Http.RequestContent | src/APIFlow/APIFlowContext.cs:104-107 | the content handed to the client is `ObjectValue` when `HasBody` is set and null otherwise |
| Http.RawRequest | src/APIFlow/HttpClientWrapper.cs:65-77 | the request keeps the verb and URI; it carries content iff the verb is not GET, and that content is the serialized value |
| Http.SelectVerb | src/APIFlow/APIFlowContext.cs:88-100 | the lookup fails, naming the step type, iff no verb attribute is present; otherwise the verb is that of the first verb attribute on `ApplyContext` |
| Http.BuildRequest | src/APIFlow/APIFlowContext.cs:78-111 | the request fails exactly when the verb lookup does; otherwise it goes to the step's URL with the selected verb |
| Http.Exchange | src/APIFlow/APIFlowContext.cs:78-111 | an exchange fails only for a missing verb or a transport failure; given a verb, a transport answer is returned as the response and no answer is a transport failure |
| Http.RecordedContent | src/APIFlow/APIFlowContext.cs:271-275 | the recorded request content is present iff `HasBody`, and is then the serialized value |
| Http.Record | src/APIFlow/APIFlowContext.cs:271-275 | the execution record keeps the URL, the recorded request content, and the response's body, status, headers and reason |
| Http.RequestBodyFollowsVerbAndHasBody | src/APIFlow/APIFlowContext.cs:104-107 | a request has content iff its verb is not GET; that content is the serialized value with a body, and the serialized null without one |
| Http.VerbIgnoresOtherAttributes | src/APIFlow/APIFlowContext.cs:88-100 | attributes that are not verbs, placed before the verb attribute, do not change the request |
| Http.FirstOfSkipsPrefix | src/APIFlow/APIFlowContext.cs:88-100 | a prefix with none of the wanted types shifts the first match by its length and does not change whether there is one |
| InputModels.InputModel.constructor | src/APIFlow/Endpoint/APIFlowInputModel.cs:76-79 | a new map is empty |
| InputModels.InputModel.Count | src/APIFlow/Endpoint/APIFlowInputModel.cs:17 | the count is the number of keys, and is zero iff the map is empty |
| InputModels.InputModel.Add | src/APIFlow/Endpoint/APIFlowInputModel.cs:21-24 | an absent key is inserted and the count grows by one; a present key is a duplicate-key error that changes nothing |
| InputModels.InputModel.Get | src/APIFlow/Endpoint/APIFlowInputModel.cs:11 | the getter returns the stored list iff the key is present, and a key-not-found error otherwise |
| InputModels.InputModel.Set | src/APIFlow/Endpoint/APIFlowInputModel.cs:11 | the setter stores the list under the key and leaves every other key's list alone |
| InputModels.InputModel.ContainsKey | src/APIFlow/Endpoint/APIFlowInputModel.cs:41-44 | true iff the key is present |
| InputModels.InputModel.TryGetValue | src/APIFlow/Endpoint/APIFlowInputModel.cs:66-69 | true with the stored list iff the key is present; null otherwise |
| InputModels.InputModel.Remove | src/APIFlow/Endpoint/APIFlowInputModel.cs:56-59 | true iff the key was present; afterwards the key is gone, every other entry is kept and the count drops by one |
| InputModels.InputModel.Clear | src/APIFlow/Endpoint/APIFlowInputModel.cs:31-34 | the map is empty afterwards |
| StepModel.ForwardedInput | src/APIFlow/Models/ApiContext.cs:26-40 | a missing key is a model error naming the key; an empty list is an index error; otherwise the result is the value of the oldest forwarded instance |
| StepModel.DefaultConfigureEndpoint | src/APIFlow/Models/ApiContext.cs:85-90 | a null endpoint becomes "", and any other endpoint is kept |
| StepModel.AppendQuery | src/APIFlow/Models/ApiContext.cs:72-83 | the URL is extended, never rewritten; the separator is '&' iff the URL already has a '?'; `name=value` follows it; the result always has a query |
| StepModel.AppendQueryForms | src/APIFlow/Models/ApiContext.cs:72-83 | the first parameter opens the query with '?' and every later one is joined with '&' |
| StepModel.BindQuery | src/APIFlow/Models/ApiContext.cs:72-83 | binding a query parameter only extends the URL and never touches the value; it fails only with a missing input or an empty input list |
| StepModel.BindModel | src/APIFlow/ApiContext.cs:159-170 | binding the model never touches the URL or the value's presence; it fails only with a missing input or an empty input list |
| StepModel.RunHook | src/Examples/ExampleAPIFlow_Project/Contexts/UserInformationContext.cs:21-25 | a hook body only extends the URL and keeps the value's presence |
| StepModel.EndpointHook | src/APIFlow/Models/ApiContext.cs:85-90 | a step type that does not override `ConfigureEndpoint` leaves the state as it was |
| StepModel.Callbacks | src/APIFlow/APIFlowContext.cs:166-197 | the override runs iff one is supplied; the instance hook runs iff the value is non-null and the mode is aggregate or there is no override |
| StepModel.RunCallbacks | src/APIFlow/APIFlowContext.cs:190-197 | the callbacks only extend the URL and keep the value's presence |
| StepModel.LifecycleExtendsRoute | src/APIFlow/APIFlowContext.cs:183-198 | a routing error is the lifecycle's error; a successful lifecycle ends with a URL that starts with the declared route and keeps the value's presence |
| StepModel.MissingInputFailsInEveryMode | src/APIFlow/Models/ApiContext.cs:26-40 | an endpoint hook that needs a type no earlier step produced fails with a model error, whatever the override and mode |
| StepModel.OverrideReplacesInstanceHook | src/APIFlow/APIFlowContext.cs:166-180 | in the default mode a supplied override replaces the step's own `ApplyContext`, whose body then makes no difference |
| StepModel.NullValueSkipsInstanceHook | src/APIFlow/APIFlowContext.cs:190-194 | with a null value the step's own `ApplyContext` never runs |
| StepModel.AggregateRunsBoth | src/APIFlow/APIFlowContext.cs:166-197 | in aggregate mode with an override and a value, both hooks run, the step's own first |
| StepModel.AggregateWithoutOverride | src/APIFlow/APIFlowContext.cs:166-180 | without an override the aggregate flag changes nothing |
| Steps.HeadsOf | src/APIFlow/ApiContext.cs:50-64 | the heads have the map's keys, and a head is empty iff that key's list is empty |
| Steps.ApiContext.constructor | src/APIFlow/ApiContext.cs:177-181 | a new step has the given type, map and data source, an empty endpoint and `HasBody` set; its value is the given object or the default, never null, and `ObjectValue` equals it |
| Steps.ApiContext.Create | src/APIFlow/ApiContext.cs:23-33 | construction fails with the data-extender error iff the data-source type is not a data extender; otherwise it gives a fresh step as the constructor describes |
| Steps.ApiContext.SetValue | src/APIFlow/ApiContext.cs:137-149 | the `Value` setter sets both `Value` and `ObjectValue` |
| Steps.ApiContext.GetInput | src/APIFlow/ApiContext.cs:50-64 | the stored list for the type's key, in stored order, iff the key is present; a model error naming the key otherwise |
| Steps.ApiContext.ResolveEndpointUrl | src/APIFlow/ApiContext.cs:66-86 | the endpoint becomes the route resolved from the given step's attributes; on a routing error it is unchanged |
| Steps.ApiContext.ConfigureEndpointFor | src/APIFlow/ApiContext.cs:96-107 | the new state is `BindQuery` of the old state and the old heads; on an error the endpoint is unchanged |
| Steps.ApiContext.ConfigureEndpoint | src/APIFlow/ApiContext.cs:109-114 | the ref result is the endpoint with null read as ""; the instance's new state is `EndpointHook` of the old one |
| Steps.ApiContext.ConfigureModel | src/APIFlow/ApiContext.cs:159-170 | the new state is `BindModel` of the old one; the callback is invoked iff the input resolves, the callback is non-null and the value is non-null; `Value` and `ObjectValue` stay equal |
| Steps.ApiContext.RunHook | src/APIFlow/ApiContext.cs:159-170 | the instance's new state is `StepModel.RunHook` of the old state and heads; `Value` and `ObjectValue` stay equal |
| Steps.ApiContext.ApplyContext | src/APIFlow/ApiContext.cs:94 | running the step's own `ApplyContext` yields the hook's state function |
| LegacySteps.HeadsOf | src/APIFlow/Models/ApiContext.cs:26-40 | the heads have the map's keys, and a head is empty iff that key's list is empty |
| LegacySteps.ApiContext.constructor | src/APIFlow/Models/ApiContext.cs:152-156 | a new step has the given type and map, an empty `EndpointUrl` and the base `HasBody` false; its value is the given object or the default, never null, and `ObjectValue` equals it |
| LegacySteps.ApiContext.SetValue | src/APIFlow/Models/ApiContext.cs:113-125 | the `Value` setter sets both `Value` and `ObjectValue` |
| LegacySteps.ApiContext.GetInput | src/APIFlow/Models/ApiContext.cs:26-40 | the stored list for the type's key iff the key is present; a model error naming the key otherwise |
| LegacySteps.ApiContext.ResolveEndpointUrl | src/APIFlow/Models/ApiContext.cs:42-62 | `EndpointUrl` becomes the route resolved from the given step's attributes; on a routing error it is unchanged |
| LegacySteps.ApiContext.ConfigureEndpointFor | src/APIFlow/Models/ApiContext.cs:72-83 | the new state is `BindQuery` of the old state and heads; on an error the URL is unchanged |
| LegacySteps.ApiContext.ConfigureEndpoint | src/APIFlow/Models/ApiContext.cs:85-90 | the ref result is the endpoint with null read as ""; the instance's new state is `EndpointHook` of the old one |
| LegacySteps.ApiContext.ConfigureModel | src/APIFlow/Models/ApiContext.cs:135-145 | the new state is `BindModel` of the old one; `Value` and `ObjectValue` stay equal |
| LegacySteps.ApiContext.RunHook | src/APIFlow/Models/ApiContext.cs:135-145 | the instance's new state is `StepModel.RunHook` of the old state and heads |
| LegacySteps.ApiContext.ApplyContext | src/APIFlow/Models/ApiContext.cs:70 | running the step's own `ApplyContext` yields the hook's state function |
| Flow.Register | src/APIFlow/APIFlowContext.cs:251-252 | registration adds the key with an empty list when absent and keeps every existing list |
| Flow.CarryForward | src/APIFlow/APIFlowContext.cs:254-259 | the previous responses are appended, in order, to the previous type's list; the carry fails with key-not-found iff there is something to carry and that key is absent; the keys and all other lists are unchanged |
| Flow.ObjectValues | src/APIFlow/APIFlowContext.cs:234 | one `ObjectValue` per context, in order |
| Flow.Flatten | src/APIFlow/APIFlowContext.cs:234 | flattening fails, as not enumerable, iff some value is not a list |
| Flow.FlattenAppend | src/APIFlow/APIFlowContext.cs:234 | flattening distributes over concatenation, failure included |
| Flow.FlattenSingle | src/APIFlow/APIFlowContext.cs:234 | one list flattens to its own elements |
| Flow.SelectValue | src/APIFlow/APIFlowContext.cs:209-237 | an empty sequence fails at `First()`; a first value that is not a list is returned when it is a `TModel` and null otherwise; with a list first, a success needs every value to be a list, and then the call succeeds iff the codec can read the gathered list back as `TModel` (otherwise a JSON error) |
| Flow.GetValueGathersLists | src/APIFlow/APIFlowContext.cs:233-234 | in the list case the codec receives exactly the concatenation of all the contexts' lists, and its reading is the result |
| Flow.FlowContext.constructor | src/APIFlow/APIFlowContext.cs:295-300 | a new context has no statistics, an empty chain, no response and an empty, fresh forwarding map |
| Flow.FlowContext.AppendChainItem | src/APIFlow/APIFlowContext.cs:32-41 | exactly one fresh `T`, holding the default value and sharing the forwarding map, with an empty URL and no body |
| Flow.RequestOutcome | src/APIFlow/APIFlowContext.cs:261-266 | a success is the lifecycle of a new instance holding the default value, then the transport's answer to that instance's bodiless request |
| Flow.ResponseOutcome | src/APIFlow/APIFlowContext.cs:50-68 | no value type is an index error, an unreadable body a JSON error; a success is the lifecycle, without aggregation, of the decoded body or the default |
| Flow.StepOutcome | src/APIFlow/APIFlowContext.cs:261-275 | a success is a successful request half, a successful response half on its response, and the record of the request's URL and the transport's response |
| Flow.StepFailures | src/APIFlow/APIFlowContext.cs:246-293 | a routing error fails the step with that error; a missing verb or value type fails it whatever the transport answers |
| Flow.StepRecordsExchange | src/APIFlow/APIFlowContext.cs:265-275 | a successful step records no request content, a URL that extends the declared route, and the status, reason, headers and body of the transport's answer to that URL |
| Flow.FlowContext.ResolveHttpResponse | src/APIFlow/APIFlowContext.cs:50-68 | a base class without a value type fails with an index error, and an unreadable body with a JSON error; otherwise exactly one fresh `T` whose value is the decoded body, or the default when the body decodes to null |
| Flow.FlowContext.ExecuteEndpoint | src/APIFlow/APIFlowContext.cs:78-111 | the response is the exchange for the step's verb, URL, and the content `HasBody` selects |
| Flow.FlowContext.ApplyToInstance | src/APIFlow/APIFlowContext.cs:183-198 | one loop pass leaves the instance in the state `Lifecycle` gives, or fails with the lifecycle's error |
| Flow.FlowContext.ApplyCallbacks | src/APIFlow/APIFlowContext.cs:190-197 | the callbacks leave the instance in the state `RunCallbacks` gives, or fail with its error |
| Flow.FlowContext.ApplyContext | src/APIFlow/APIFlowContext.cs:162-200 | on success every instance holds the `Lifecycle` of its old state; a failure is the lifecycle error of some instance; the forwarded heads and `HasBody` are untouched |
| Flow.FlowContext.CarryPrevious | src/APIFlow/APIFlowContext.cs:254-259 | the forwarding map becomes `CarryForward` of the old map; on failure the map is unchanged |
| Flow.FlowContext.SendRequest | src/APIFlow/APIFlowContext.cs:261-266 | it fails exactly as `RequestOutcome` does, with the same error; otherwise the fresh request instance holds the lifecycle of the default state, has no body, and the response is the exchange for its URL |
| Flow.FlowContext.ReceiveResponse | src/APIFlow/APIFlowContext.cs:267-269 | it fails exactly as `ResponseOutcome` does (no value type, an unreadable body, a failing lifecycle); otherwise one fresh instance holds the lifecycle, without aggregation, of the decoded body |
| Flow.FlowContext.RunStep | src/APIFlow/APIFlowContext.cs:261-275 | it succeeds iff `StepOutcome` does, failing with the same error; on success the one fresh response holds `StepOutcome`'s state and the record is `StepOutcome`'s record of the exchange |
| Flow.FlowContext.Prepare | src/APIFlow/APIFlowContext.cs:249-259 | the map becomes the carry-forward of the registered map; a failed carry leaves the registration in place |
| Flow.FlowContext.Commit | src/APIFlow/APIFlowContext.cs:277-290 | the response becomes the latest, the chain and the statistics each grow by their new items, and the forwarded heads are untouched |
| Flow.FlowContext.Execute | src/APIFlow/APIFlowContext.cs:246-293 | the map is registered and carried forward; a failure leaves every other field unchanged; a success appends one fresh response to the chain and one statistic with the two instants; once the carry-forward succeeds, it passes iff `StepOutcome` succeeds, fails with `StepOutcome`'s error otherwise, and on success the response state and the record are `StepOutcome`'s; a missing verb, value type or route fails |
| Flow.FlowContext.GetValue | src/APIFlow/APIFlowContext.cs:209-237 | it is `SelectValue` of the contexts' values: an empty sequence fails; a first value that is not a list is returned iff it fits `TModel`, null otherwise; with a list first, a failure is a non-list value or an unreadable list |
| DataExtenders.StatisticsLog.constructor | src/APIFlow/Repositories/HTTPDataExtender.cs:132 | the statistics list starts empty |
| DataExtenders.HttpDataExtender.ResolveHttpResponse | src/APIFlow/Repositories/HTTPDataExtender.cs:26-44 | it fails iff there is no value type (an index error), the body is unreadable (a JSON error) or the data source is not a data extender; otherwise it gives one fresh step sharing the given map, with the decoded body or the default as its value |
| DataExtenders.HttpDataExtender.ExecuteEndpoint | src/APIFlow/Repositories/HTTPDataExtender.cs:54-87 | the response is the exchange for the step's verb, `Endpoint`, and the content the root `HasBody` selects |
| DataExtenders.HttpDataExtender.ExecuteDataResource | src/APIFlow/Repositories/HTTPDataExtender.cs:132-150 | success iff the exchange succeeds, there is a value type, the body is readable as it and the data source is valid; a failed exchange's error is returned; exactly one statistic is appended on success and none on failure; one fresh response holds the decoded body |
| TypeExtensions.Swap | src/APIFlow/Extensions/TypeExtensions.cs:21-23 | the two positions are exchanged and every other position is kept |
| TypeExtensions.SwapPermutes | src/APIFlow/Extensions/TypeExtensions.cs:21-23 | a swap keeps the multiset of elements |
| TypeExtensions.ShuffledPermutes | src/APIFlow/Extensions/TypeExtensions.cs:17-24 | the remaining rounds keep the length and the multiset, and never touch the positions at or after the counter |
| TypeExtensions.Shuffle | src/APIFlow/Extensions/TypeExtensions.cs:13-27 | the result is the Fisher–Yates order the draws select, a permutation of the input of the same length; a list of at most one element comes back unchanged |
| Scenarios.UserInformationType | src/APIFlow.Tests/Contexts/UserInformationContext.cs:12-29 | the step type overrides `ConfigureEndpoint` with the user-id query, and its `ApplyContext` binds the user id into the model and then the query |
| Scenarios.RouteAfterVerb | src/Examples/ExampleAPIFlow_Project/Contexts/UserContext.cs:10-11 | a `[Route]` placed after `[HttpGet]` is the first route attribute |
| Scenarios.RoutesResolve | src/Examples/ExampleAPIFlow_Project/Contexts/UserContext.cs:10-12 | the users step and the user-information step resolve to the routes their `[Route]` attributes carry |
| Scenarios.ForwardFeedBindsUserId | src/APIFlow.Tests/ForwardFeedTests.cs:82-95 | with one forwarded user, `ApplyContext` makes that user's id the value's `Id` and appends it to the URL as `Id` |
| Scenarios.ForwardFeedUrl | src/APIFlow.Tests/ForwardFeedTests.cs:67-80 | the route followed by `ApplyContext` gives exactly the route, then `?Id=`, then the user's id |
| Scenarios.LifecycleAddsUserIdTwice | src/Examples/ExampleAPIFlow_Project/Contexts/UserInformationContext.cs:9-25 | the orchestrator's lifecycle runs both the endpoint override and `ApplyContext`, so the URL carries `?Id=` and then `&Id=` with the same id |
| Scenarios.EndpointUrlAfterOverride | src/Examples/ExampleAPIFlow_Project/Contexts/UserInformationContext.cs:9-14 | the endpoint override alone opens the query with the user's id |
| Scenarios.EmptyOverrideAddsUserIdOnce | src/APIFlow/APIFlowContext.cs:166-180 | an empty override replaces `ApplyContext`, so the id is added once and the value keeps its default |
| Scenarios.RouteFailures | src/APIFlow.Tests/ForwardFeedTests.cs:110-135 | the step type without a `[Route]` fails with RouteMissing and the one with `[Route()]` with RouteValueMissing, before any hook runs |
| Scenarios.ConfigureModelMissingInput | src/APIFlow.Tests/ForwardFeedTests.cs:98-109 | `ConfigureModel<UserInformationContext>` with only users forwarded fails with a model error |
| Scenarios.UsersStepUrl | src/Examples/ExampleAPIFlow_Project/Contexts/UserContext.cs:10-15 | the users step has no hooks, so a successful execution records its route as the URL |
| Scenarios.EndToEnd | src/APIFlow.Tests/APIFlowContextTests.cs:19-24 | if the first execution fails, the second is never reached and nothing is recorded; if both succeed, there are two chain entries and two statistics, the first statistic is at the users route, the response is the second step's, and the map holds both keys |

## Behaviour the model follows from the code

Where the documented design and the code differ, the model follows the code:

- A `[Route]` whose argument is null yields the empty route, not an error. Only a missing attribute and an attribute without arguments fail (`Metadata.ResolveRoute`).
- `ConfigureEndpoint<T>` and `ConfigureModel<T>` read `GetInput<T>()[0]`, the oldest forwarded instance, not the most recent one.
- An empty forwarded list is an index error, not a model-resolution error.
- The orchestrator reads the *base* `HasBody`. A subclass's `HasBody` (a `new` property, or the override in the test suite's `UserInformationContext`) hides it and is never consulted. So under `APIFlowContext` (base default false) a request never carries the step's value, and under `HTTPDataExtender` (root default true) it always does.
- Every callback runs before the request is sent, and again, without aggregation, on the response instance. A step type that overrides `ConfigureEndpoint` and also appends in `ApplyContext` therefore adds the same parameter twice (`Scenarios.LifecycleAddsUserIdTwice`).
- In `APIFlowContext.ResolveHttpResponse`, the "could not resolve model type" check cannot be reached. Indexing the generic arguments throws first, so the model reports an index error.
- A failing `Execute` keeps the key registration and any carry-forward already done; only the orchestrator's other fields stay unchanged.
- `ExecuteDataResource` appends its statistic only after the response has been resolved, so a failing execution appends nothing.

## Left out

- Network, sockets and `async`: the HTTP client is a parameter function, and `.Result` blocking is not modelled.
- JSON serialization and deserialization: they are the `Codec` parameter. Serialization always succeeds. Deserialization may fail (`Unreadable`), which the model reports as a JSON error. No round-trip law between the two is assumed.
- Reflection, `Activator.CreateInstance` and casts: they are replaced by the `StepType` descriptor. The `as TModel` test in `GetValue` is the `fits` parameter.
- The clock: the timestamps are opaque instants passed in. `RegressionStatistic.ExecutionTime` (a floating-point difference) is not modelled.
- Request headers and the `HttpClient`/`HttpClientWrapper` objects: the headers recorded in `EndpointRequestInfo` come from a client object that is not part of this model.
- `Uri` validation of the endpoint string, and the form-encoded content path of `RawRequest` (`isQueryParameters` is always false in the core).
- Steps.ApiContext.ConfigureClient and LegacySteps.ApiContext.ConfigureClient: these have no contract, because the base implementation does nothing and the wrapper is not modelled.
- DataExtenders.HttpDataExtender.constructor: this has no contract, because the extender has no state.
- TypeExtensions.Shuffle: the static `Random` becomes an explicit sequence of draws. Its precondition `ValidDraws` states the range each `Next(n + 1)` call returns.
- StepModel.BindModel: the step's own callback is a total function. An exception thrown inside a callback is not modelled. For example, `u.Value?[0].Id ?? 0` throws `ArgumentOutOfRangeException` on an empty user list, because `?? 0` guards only a null list. `Scenarios.FirstUserId` reads 0 there instead.
- LegacySteps.ApiContext.ConfigureModel: this shares `BindModel`, which skips the callback when the value is null. The legacy code would invoke the callback with null. The constructor and every hook keep the value non-null, so that case cannot arise in the model.
- LegacySteps.ApiContext.RunHook and Steps.ApiContext.RunHook: these require that the step is not itself the head of a forwarded list (`this !in HeadObjects`). In the source, an instance that reads its own forwarded value while changing it is possible, but no caller does this.
- Flow.FlowContext.GetValue: only list values are treated as enumerable. A string value, which C# would enumerate character by character, is treated as not enumerable.
- The dictionary members that merely delegate and are not used by the engine are not modelled: `Keys`, `Values`, `IsReadOnly`, `Contains`, `CopyTo`, `GetEnumerator`, and `Add`/`Remove` of a key–value pair.
- The second `ExecuteEndpoint<T>(content)` overloads, which only discard the `out` client, are not modelled separately.
