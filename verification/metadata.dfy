/** The metadata a step type declares on its `ApplyContext` method: an HTTP
    verb attribute and a `[Route]` attribute. Reflection over custom
    attributes becomes a plain list of attributes. */
module Metadata {
  import opened Common

  /** A custom attribute: its type name and its constructor arguments
      (`None` is a null argument). */
  datatype Attribute = Attribute(typeName: string, args: seq<Option<string>>)

  const HttpGetAttribute := "HttpGetAttribute"
  const HttpPostAttribute := "HttpPostAttribute"
  const HttpPutAttribute := "HttpPutAttribute"
  const HttpPatchAttribute := "HttpPatchAttribute"
  const HttpDeleteAttribute := "HttpDeleteAttribute"
  const RouteAttribute := "RouteAttribute"

  /** The five attribute types the verb lookup accepts. */
  const VerbAttributes: set<string> :=
    {HttpGetAttribute, HttpPostAttribute, HttpPutAttribute, HttpPatchAttribute, HttpDeleteAttribute}

  datatype HttpMethod = Get | Post | Put | Patch | Delete

  /** `FirstOrDefault` over the attributes: the index of the first one whose
      type is among `names`. */
  function FirstOf(attrs: seq<Attribute>, names: set<string>): (r: Option<nat>)
    ensures r.Some? ==> r.value < |attrs| && attrs[r.value].typeName in names
    ensures r.Some? ==> forall j :: 0 <= j < r.value ==> attrs[j].typeName !in names
    ensures r.None? ==> forall j :: 0 <= j < |attrs| ==> attrs[j].typeName !in names
  {
    if |attrs| == 0 then None
    else if attrs[0].typeName in names then Some(0)
    else match FirstOf(attrs[1..], names)
      case None => None
      case Some(k) => Some(k + 1)
  }

  /** The verb attribute the executor finds on `ApplyContext`, if any: the
      first one, as `FirstOrDefault` returns it. */
  function FindVerbAttribute(attrs: seq<Attribute>): (r: Option<Attribute>)
    ensures r.None? <==> forall j :: 0 <= j < |attrs| ==> attrs[j].typeName !in VerbAttributes
    ensures r.Some? ==> r.value in attrs && r.value.typeName in VerbAttributes
    ensures r.Some? ==> exists j :: && 0 <= j < |attrs| && attrs[j] == r.value
                                    && forall i :: 0 <= i < j ==> attrs[i].typeName !in VerbAttributes
  {
    match FirstOf(attrs, VerbAttributes)
    case None => None
    case Some(k) => Some(attrs[k])
  }

  /** The `switch` on the verb attribute's type name: each of the five names
      selects its verb and every other name falls to the `default` label,
      which shares GET's branch. */
  function HttpVerbMethod(attributeName: string): (m: HttpMethod)
    ensures m == Post <==> attributeName == HttpPostAttribute
    ensures m == Put <==> attributeName == HttpPutAttribute
    ensures m == Patch <==> attributeName == HttpPatchAttribute
    ensures m == Delete <==> attributeName == HttpDeleteAttribute
    ensures m == Get <==> attributeName !in VerbAttributes - {HttpGetAttribute}
  {
    if attributeName == HttpPostAttribute then Post
    else if attributeName == HttpPutAttribute then Put
    else if attributeName == HttpPatchAttribute then Patch
    else if attributeName == HttpDeleteAttribute then Delete
    else Get
  }

  /** `ResolveEndpointUrl`: the route template of the first `[Route]`
      attribute. No such attribute, and such an attribute without any
      constructor argument, are two distinct routing errors; a null argument
      becomes the empty string. `owner` is the type named in the message. */
  function ResolveRoute(owner: Option<string>, attrs: seq<Attribute>): (r: Result<string>)
    ensures r.Err? ==> r == Err(RouteMissing(owner)) || r == Err(RouteValueMissing(owner))
  {
    match FirstOf(attrs, {RouteAttribute})
    case None => Err(RouteMissing(owner))
    case Some(k) =>
      if |attrs[k].args| > 0 then Ok(attrs[k].args[0].GetOr(""))
      else Err(RouteValueMissing(owner))
  }

  /** Which of its three outcomes `ResolveRoute` has, in terms of the
      attributes alone: no `[Route]` at all, a first `[Route]` without
      arguments, or the first argument of the first `[Route]`. */
  lemma RouteOutcomes(owner: Option<string>, attrs: seq<Attribute>)
    ensures ResolveRoute(owner, attrs) == Err(RouteMissing(owner)) <==>
              forall j :: 0 <= j < |attrs| ==> attrs[j].typeName != RouteAttribute
    ensures ResolveRoute(owner, attrs) == Err(RouteValueMissing(owner)) <==>
              exists j :: FirstRouteAt(attrs, j) && |attrs[j].args| == 0
    ensures ResolveRoute(owner, attrs).Ok? <==> exists j :: FirstRouteAt(attrs, j) && |attrs[j].args| > 0
    ensures ResolveRoute(owner, attrs).Ok? ==>
              exists j :: FirstRouteAt(attrs, j) && |attrs[j].args| > 0 && ResolveRoute(owner, attrs).value == attrs[j].args[0].GetOr("")
  {
    var first := FirstOf(attrs, {RouteAttribute});
    if first.Some? {
      assert FirstRouteAt(attrs, first.value);
    }
  }

  /** Position `j` holds the first `[Route]` attribute. */
  predicate FirstRouteAt(attrs: seq<Attribute>, j: int) {
    && 0 <= j < |attrs|
    && attrs[j].typeName == RouteAttribute
    && forall i :: 0 <= i < j ==> attrs[i].typeName != RouteAttribute
  }
}
