/** `HTTPDataExtender`: the data source that executes a step of the newer
    step class over HTTP, records the exchange and turns the response body
    into exactly one response instance. */
module DataExtenders {
  import opened Common
  import opened Payloads
  import opened Metadata
  import opened StepModel
  import opened InputModels
  import opened Steps
  import opened Http

  /** The caller's `IList<RegressionStatistic>` that an execution appends to. */
  class StatisticsLog {
    var records: seq<RegressionStatistic>

    constructor ()
      ensures records == []
    {
      records := [];
    }
  }

  class HttpDataExtender {
    constructor () {
    }

    /** `ResolveHttpResponse<T>(resp, inputModel)`: the value type is the
        first generic argument of `T`'s base class (a base class without one
        fails at that index, before the null check is reached); the body is
        decoded to it, which throws on a body the codec cannot read, and
        exactly one `T` is built around the result, sharing the given input
        map, through `T`'s constructor, which repeats the data-source check.
        A body that decodes to null gives the default value. */
    method ResolveHttpResponse(t: StepType, source: DataSourceType, resp: HttpResponse, inputModel: InputModel<ApiContext>, codec: Codec)
      returns (r: Result<seq<ApiContext>>)
      ensures r.Err? <==> t.modelType.None? || codec.deserialize(resp.body, t.modelType.value).Unreadable? || !source.isDataExtender
      ensures t.modelType.None? ==> r == Err(IndexOutOfRange)
      ensures t.modelType.Some? && codec.deserialize(resp.body, t.modelType.value).Unreadable? ==> r == Err(JsonUnreadable)
      ensures t.modelType.Some? && codec.deserialize(resp.body, t.modelType.value).Decoded? && !source.isDataExtender ==>
                r == Err(InvalidDataExtender)
      ensures r.Ok? ==> |r.value| == 1 && fresh(r.value[0])
      ensures r.Ok? ==> r.value[0].stepType == t && r.value[0].inputs == inputModel && r.value[0].dataSource == source
      ensures r.Ok? ==> r.value[0].value == Some(codec.deserialize(resp.body, t.modelType.value).value.GetOr(t.defaultValue))
      ensures r.Ok? ==> r.value[0].endpoint == "" && r.value[0].hasBody && r.value[0].InSync()
    {
      if t.modelType.None? {
        return Err(IndexOutOfRange);
      }
      var decoded := codec.deserialize(resp.body, t.modelType.value);
      if decoded.Unreadable? {
        return Err(JsonUnreadable);
      }
      var created := ApiContext.Create(t, source, decoded.value, inputModel);
      if created.Err? {
        return Err(created.error);
      }
      r := Ok([created.value]);
    }

    /** `ExecuteEndpoint<T>(content, out client)`: the verb attribute of `T`'s
        `ApplyContext` selects the verb (none at all throws); the request goes
        to `content.Endpoint` and carries `ObjectValue` iff the root `HasBody`
        is set. */
    method ExecuteEndpoint(content: ApiContext, send: WireRequest -> Option<HttpResponse>, codec: Codec)
      returns (r: Result<HttpResponse>)
      ensures r == Exchange(send, codec, content.stepType, content.endpoint, content.hasBody, content.objectValue)
    {
      var attribute := FindVerbAttribute(content.stepType.applyAttributes);
      if attribute.None? {
        return Err(VerbMissing(content.stepType.fullName));
      }
      var verb := HttpVerbMethod(attribute.value.typeName);
      var body := if content.hasBody then content.objectValue else None;
      var request := RawRequest(codec, verb, content.endpoint, body);
      var answer := send(request);
      if answer.None? {
        return Err(TransportFailure);
      }
      r := Ok(answer.value);
    }

    /** `ExecuteDataResource<T>(instance, inputModel, statistics)`: executes
        the step, builds its statistic (URL, recorded content, response and
        the two clock readings), resolves the response and only then appends
        the statistic, so an execution that throws appends nothing and one
        that returns appends exactly one record at the end. */
    method ExecuteDataResource(instance: ApiContext, inputModel: InputModel<ApiContext>, statistics: StatisticsLog,
                               send: WireRequest -> Option<HttpResponse>, codec: Codec, requestTime: int, responseTime: int)
      returns (r: Result<seq<ApiContext>>)
      modifies statistics
      ensures var x := Exchange(send, codec, instance.stepType, instance.endpoint, instance.hasBody, instance.objectValue);
              r.Ok? <==> && x.Ok? && instance.stepType.modelType.Some?
                         && codec.deserialize(x.value.body, instance.stepType.modelType.value).Decoded?
                         && instance.dataSource.isDataExtender
      ensures var x := Exchange(send, codec, instance.stepType, instance.endpoint, instance.hasBody, instance.objectValue);
              r.Ok? ==> statistics.records == old(statistics.records) +
                          [RegressionStatistic(requestTime, responseTime, Record(codec, instance.endpoint, instance.hasBody, instance.objectValue, x.value))]
      ensures r.Err? ==> statistics.records == old(statistics.records)
      ensures var x := Exchange(send, codec, instance.stepType, instance.endpoint, instance.hasBody, instance.objectValue);
              x.Err? ==> r == Err(x.error)
      ensures var x := Exchange(send, codec, instance.stepType, instance.endpoint, instance.hasBody, instance.objectValue);
              r.Ok? ==> && |r.value| == 1 && fresh(r.value[0])
                        && r.value[0].stepType == instance.stepType && r.value[0].inputs == inputModel
                        && r.value[0].value == Some(codec.deserialize(x.value.body, instance.stepType.modelType.value).value.GetOr(instance.stepType.defaultValue))
    {
      var resp := ExecuteEndpoint(instance, send, codec);
      if resp.Err? {
        return Err(resp.error);
      }
      var info := Record(codec, instance.endpoint, instance.hasBody, instance.objectValue, resp.value);
      var statistic := RegressionStatistic(requestTime, responseTime, info);
      r := ResolveHttpResponse(instance.stepType, instance.dataSource, resp.value, inputModel, codec);
      if r.Err? {
        return;
      }
      statistics.records := statistics.records + [statistic];
    }
  }
}
