/** The request an executor sends and the record it keeps of it. The HTTP
    client itself is a parameter: a transport that answers a wire request
    with a response, or with `None` when sending fails. */
module Http {
  import opened Common
  import opened Payloads
  import opened Metadata
  import opened StepModel

  /** An `HttpRequestMessage`: verb, URI and the serialized content, if any. */
  datatype WireRequest = WireRequest(verb: HttpMethod, uri: string, body: Option<string>)

  /** An `HttpResponseMessage`, reduced to what the engine reads from it. */
  datatype HttpResponse = HttpResponse(
    status: int,
    reason: Option<string>,
    headers: map<string, seq<string>>,
    body: string)

  /** `EndpointExecutionInfo`: the URL, the request content and the response.
      The request headers come from a client object that is not part of this
      model. */
  datatype ExecutionInfo = ExecutionInfo(
    url: string,
    requestContent: Option<string>,
    responseHeaders: map<string, seq<string>>,
    responseContent: string,
    reasonPhrase: Option<string>,
    statusCode: int)

  /** `RegressionStatistic`: the two clock readings around an execution,
      kept as opaque instants, and the execution record. */
  datatype RegressionStatistic = RegressionStatistic(requestTimestamp: int, responseTimestamp: int, info: ExecutionInfo)

  /** The content an executor hands to `RawRequest`: `HasBody ? ObjectValue : null`. */
  function RequestContent(hasBody: bool, objectValue: Option<Json>): (c: Option<Json>)
    ensures hasBody ==> c == objectValue
    ensures !hasBody ==> c == None
  {
    if hasBody then objectValue else None
  }

  /** `HttpClientWrapper.RawRequest(method, endpoint, content, false)`: the
      content is always serialized (null as the JSON literal), but a GET
      request is sent without it. */
  function RawRequest(codec: Codec, verb: HttpMethod, endpoint: string, content: Option<Json>): (w: WireRequest)
    ensures w.verb == verb && w.uri == endpoint
    ensures w.body.None? <==> verb == Get
    ensures w.body.Some? ==> w.body.value == codec.serialize(content)
  {
    WireRequest(verb, endpoint, if verb == Get then None else Some(codec.serialize(content)))
  }

  /** The verb selection of `ExecuteEndpoint`: without a verb attribute the
      lookup falls back to `object`, which is not an attribute, and the
      executor throws naming the step type; otherwise the verb of the first
      verb attribute. */
  function SelectVerb(t: StepType): (r: Result<HttpMethod>)
    ensures r.Err? <==> forall j :: 0 <= j < |t.applyAttributes| ==> t.applyAttributes[j].typeName !in VerbAttributes
    ensures r.Err? ==> r.error == VerbMissing(t.fullName)
    ensures r.Ok? ==> exists j :: && 0 <= j < |t.applyAttributes|
                                  && t.applyAttributes[j].typeName in VerbAttributes
                                  && (forall i :: 0 <= i < j ==> t.applyAttributes[i].typeName !in VerbAttributes)
                                  && r.value == HttpVerbMethod(t.applyAttributes[j].typeName)
  {
    match FindVerbAttribute(t.applyAttributes)
    case None => Err(VerbMissing(t.fullName))
    case Some(a) => Ok(HttpVerbMethod(a.typeName))
  }

  /** `ExecuteEndpoint` up to the send: the verb check, then the request for
      the step's URL with the content `HasBody` selects. */
  function BuildRequest(codec: Codec, t: StepType, url: string, hasBody: bool, objectValue: Option<Json>): (r: Result<WireRequest>)
    ensures r.Err? <==> SelectVerb(t).Err?
    ensures r.Err? ==> r.error == VerbMissing(t.fullName)
    ensures r.Ok? ==> r.value.verb == SelectVerb(t).value && r.value.uri == url
  {
    match SelectVerb(t)
    case Err(e) => Err(e)
    case Ok(verb) => Ok(RawRequest(codec, verb, url, RequestContent(hasBody, objectValue)))
  }

  /** `ExecuteEndpoint`: build the request and send it. */
  function Exchange(send: WireRequest -> Option<HttpResponse>, codec: Codec, t: StepType, url: string, hasBody: bool, objectValue: Option<Json>): (r: Result<HttpResponse>)
    ensures r.Err? ==> r.error == VerbMissing(t.fullName) || r.error == TransportFailure
    ensures SelectVerb(t).Err? ==> r == Err(VerbMissing(t.fullName))
    ensures r.Ok? ==> send(BuildRequest(codec, t, url, hasBody, objectValue).value) == Some(r.value)
    ensures SelectVerb(t).Ok? && send(BuildRequest(codec, t, url, hasBody, objectValue).value).Some? ==>
              r == Ok(send(BuildRequest(codec, t, url, hasBody, objectValue).value).value)
    ensures SelectVerb(t).Ok? && send(BuildRequest(codec, t, url, hasBody, objectValue).value).None? ==>
              r == Err(TransportFailure)
  {
    match BuildRequest(codec, t, url, hasBody, objectValue)
    case Err(e) => Err(e)
    case Ok(req) =>
      match send(req)
      case None => Err(TransportFailure)
      case Some(resp) => Ok(resp)
  }

  /** The request content an execution record keeps: the serialized value
      iff the step has a body. */
  function RecordedContent(codec: Codec, hasBody: bool, objectValue: Option<Json>): (c: Option<string>)
    ensures c.Some? <==> hasBody
    ensures c.Some? ==> c.value == codec.serialize(objectValue)
  {
    if hasBody then Some(codec.serialize(objectValue)) else None
  }

  /** `new EndpointExecutionInfo(...)` for a step's URL, body and response. */
  function Record(codec: Codec, url: string, hasBody: bool, objectValue: Option<Json>, resp: HttpResponse): (info: ExecutionInfo)
    ensures info.url == url && info.requestContent == RecordedContent(codec, hasBody, objectValue)
    ensures info.responseContent == resp.body && info.statusCode == resp.status
    ensures info.responseHeaders == resp.headers && info.reasonPhrase == resp.reason
  {
    ExecutionInfo(url, RecordedContent(codec, hasBody, objectValue), resp.headers, resp.body, resp.reason, resp.status)
  }

  /** A request carries content exactly when its verb is not GET; the content
      is the step's serialized value when it has a body, and the serialized
      null otherwise, so a step without a body never sends its value. */
  lemma RequestBodyFollowsVerbAndHasBody(codec: Codec, t: StepType, url: string, hasBody: bool, objectValue: Option<Json>)
    requires BuildRequest(codec, t, url, hasBody, objectValue).Ok?
    ensures var w := BuildRequest(codec, t, url, hasBody, objectValue).value;
            && (w.body.Some? <==> w.verb != Get)
            && (w.body.Some? && hasBody ==> w.body.value == codec.serialize(objectValue))
            && (w.body.Some? && !hasBody ==> w.body.value == codec.serialize(None))
  {
  }

  /** The verb sent is determined by the first verb attribute alone: other
      attributes placed before it make no difference. */
  lemma {:induction false} VerbIgnoresOtherAttributes(codec: Codec, t: StepType, others: seq<Attribute>, url: string, hasBody: bool, v: Option<Json>)
    requires forall j :: 0 <= j < |others| ==> others[j].typeName !in VerbAttributes
    ensures BuildRequest(codec, t.(applyAttributes := others + t.applyAttributes), url, hasBody, v)
            == BuildRequest(codec, t, url, hasBody, v)
  {
    FirstOfSkipsPrefix(others, t.applyAttributes, VerbAttributes);
  }

  lemma {:induction false} FirstOfSkipsPrefix(others: seq<Attribute>, attrs: seq<Attribute>, names: set<string>)
    requires forall j :: 0 <= j < |others| ==> others[j].typeName !in names
    ensures FirstOf(others + attrs, names).None? <==> FirstOf(attrs, names).None?
    ensures FirstOf(attrs, names).Some? ==> FirstOf(others + attrs, names) == Some(FirstOf(attrs, names).value + |others|)
    decreases |others|
  {
    if |others| > 0 {
      assert (others + attrs)[1..] == others[1..] + attrs;
      FirstOfSkipsPrefix(others[1..], attrs, names);
    } else {
      assert others + attrs == attrs;
    }
  }
}
