/** The client library (handlers.go, types.go): every `OLAMap` operation checks
    its required parameters, then the session token, builds the provider URL,
    and hands it to the session's dispatcher (`HttpServ.SendOlaMapRequest`).
    The dispatcher is a function parameter; whether it is called, and with
    which arguments, is what the model observes. */
module Library {
  import opened Text
  import opened Guards
  import opened Encoding
  import opened Endpoints
  import opened Images

  // ---- parameter records (types.go) ----

  datatype NearBySearch = NearBySearch(
    layers: string, location: string, types: string, radius: string,
    strictbounds: string, withCentroid: string, limit: string)

  datatype TextSearch = TextSearch(
    input: string, location: string, radius: string, types: string, size: string)

  datatype MapImage = MapImage(
    stylename: string, imagewidth: string, imageheight: string, imageformat: string,
    path: string, markers: seq<string>)

  datatype MapImageBounded = MapImageBounded(
    stylename: string, minxstr: string, minystr: string, maxxstr: string, maxystr: string,
    imagewidth: string, imageheight: string, imageformat: string,
    markers: seq<string>, path: string)

  datatype MapImageCenter = MapImageCenter(
    stylename: string, longitude: string, latitude: string, zoomlevel: string,
    imagewidth: string, imageheight: string, imageformat: string,
    markers: seq<string>, path: string)

  /** The client session (`OLAMap`) without its dispatcher. */
  datatype OlaMap = OlaMap(token: string, requestId: string)

  /** The operations answered through the dispatcher, with their arguments. */
  datatype Operation =
    | GetDirections(origin: string, destination: string)
    | PlaceAutoComplete(input: string)
    | GeoCode(address: string, bounds: string, language: string)
    | ReverseGeocode(latlng: string)
    | GetDistanceMatrix(origins: string, destinations: string)
    | ArrayOfData(datasetName: string)
    | GetStyleDetails(styleName: string)
    | GetMapStyle
    | GetPlaceDetail(placeId: string)
    | GetNearBySearch(nearBySearch: NearBySearch)
    | GetTextSearch(textSearch: TextSearch)
    | GetSnapToRoad(points: string, enhancePath: string)
    | GetNearestRoads(points: string, radius: string)

  /** The arguments of one `SendOlaMapRequest` call. */
  datatype Call = Call(verb: string, url: string, requestId: string, oauthToken: string)

  /** What an operation does before the network: fail with a message, or dispatch. */
  datatype Plan = Reject(message: string) | Dispatch(call: Call)

  const InvalidOAuthToken := "Invalid OAuth token"
  const SendFailed := "failed to send request to Olamaps API"

  // The messages of the parameter checks, as the operations word them.
  const MissingOriginOrDestination := "Missing required query parameters: 'origin' and/or 'destination'"
  const MissingInput := "Missing required query parameters: 'input'"
  const MissingAddress := "Missing required query parameters: 'address'"
  const MissingLatlng := "Missing required query parameters: 'latlng'"
  const MissingDatasetName := "Missing required query parameters: 'datasetname'"
  const MissingStyleName := "Missing required query parameters: 'stylename'"
  const MissingPlaceId := "Missing required query parameters: 'placeid'"
  const MissingLayersOrLocation := "Missing required query parameters: 'layers' and/or 'location'"
  const MissingPoints := "Missing required query parameters: 'points'"
  const MissingPointsOrRadius := "Missing required query parameters: 'points' and/or 'radius'"
  const MissingCenterParams := "Missing required query parameters: 'stylename' or 'longitude' or 'latitude' or 'zoomlevel' or 'width' or 'height' or 'format'"
  const MissingBoundedParams := "Missing required query parameters: 'styleName' or 'minXStr' or 'minYStr' or 'maxXStr' or 'maxYStr' or 'imageWidthStr' or 'imageHeightStr' or 'imageFormat'"
  const MissingAutoParams := "Missing required query parameters: 'stylename' or 'imagewidth' or 'imageheight' or 'imageformat' or path"

  // The messages of the numeric checks, shared by the image operations and handlers.
  const InvalidLongitude := "Invalid longitude value"
  const InvalidLatitude := "Invalid latitude value"
  const InvalidZoomLevel := "Invalid zoom level value"
  const InvalidImageWidth := "Invalid image width value"
  const InvalidImageHeight := "Invalid image height value"
  const InvalidMinX := "Invalid min_x value"
  const InvalidMinY := "Invalid min_y value"
  const InvalidMaxX := "Invalid max_x value"
  const InvalidMaxY := "Invalid max_y value"

  // The transport messages of the image requests.
  const ExternalRequestFailed := "Failed to make external request"
  const CreateRequestFailed := "Failed to create request"
  const SendRequestFailed := "Failed to send request"

  /** The values each operation requires to be non-empty, and no others. */
  function RequiredParams(op: Operation): seq<string> {
    match op
    case GetDirections(origin, destination) => [origin, destination]
    case PlaceAutoComplete(input) => [input]
    case GeoCode(address, _, _) => [address]
    case ReverseGeocode(latlng) => [latlng]
    case GetDistanceMatrix(origins, destinations) => [origins, destinations]
    case ArrayOfData(datasetName) => [datasetName]
    case GetStyleDetails(styleName) => [styleName]
    case GetMapStyle => []
    case GetPlaceDetail(placeId) => [placeId]
    case GetNearBySearch(n) => [n.layers, n.location]
    case GetTextSearch(t) => [t.input]
    case GetSnapToRoad(points, _) => [points]
    case GetNearestRoads(points, _) => [points]
  }

  /** The parameter check each operation makes first, with its exact message. */
  function ParamGuards(op: Operation): (gs: seq<Guard<string>>)
    ensures |gs| <= 1
    ensures gs == [] <==> RequiredParams(op) == []
    ensures AllPass(gs) <==> "" !in RequiredParams(op)
  {
    var gs := match op
    case GetDirections(origin, destination) =>
      [Guard(!(origin == "" || destination == ""),
             MissingOriginOrDestination)]
    case PlaceAutoComplete(input) =>
      [Guard(input != "", MissingInput)]
    case GeoCode(address, _, _) =>
      [Guard(address != "", MissingAddress)]
    case ReverseGeocode(latlng) =>
      [Guard(latlng != "", MissingLatlng)]
    case GetDistanceMatrix(origins, destinations) =>
      [Guard(!(origins == "" || destinations == ""),
             MissingOriginOrDestination)]
    case ArrayOfData(datasetName) =>
      [Guard(datasetName != "", MissingDatasetName)]
    case GetStyleDetails(styleName) =>
      [Guard(styleName != "", MissingStyleName)]
    case GetMapStyle => []
    case GetPlaceDetail(placeId) =>
      [Guard(placeId != "", MissingPlaceId)]
    case GetNearBySearch(n) =>
      [Guard(!(n.layers == "" || n.location == ""),
             MissingLayersOrLocation)]
    case GetTextSearch(t) =>
      [Guard(t.input != "", MissingInput)]
    case GetSnapToRoad(points, _) =>
      [Guard(points != "", MissingPoints)]
    case GetNearestRoads(points, _) =>
      [Guard(points != "", MissingPointsOrRadius)];
    assert AllPass(gs) <==> gs == [] || gs[0].ok;
    gs
  }

  /** The session-token check that follows the parameter check. */
  function TokenGuard(o: OlaMap): Guard<string> {
    Guard(o.token != "", InvalidOAuthToken)
  }

  /** The provider URL of an operation, with the escaping each one applies. */
  function EndpointUrl(op: Operation, c: Codec): (url: string)
    ensures HasPrefix(url, Host)
  {
    var url :=
      match op
      case GetDirections(origin, destination) => Sprintf(DirectionsURL, [origin, destination])
      case PlaceAutoComplete(input) => Sprintf(PlaceAutoCompleteURL, [input])
      case GeoCode(address, bounds, language) => Sprintf(GeoCodeURL, [address, bounds, language])
      case ReverseGeocode(latlng) => Sprintf(ReverseGeocodeURL, [c.queryEscape(latlng)])
      case GetDistanceMatrix(origins, destinations) =>
        Sprintf(DistanceMatrixURL, [c.queryEscape(origins), c.queryEscape(destinations)])
      case ArrayOfData(datasetName) => Sprintf(ArrayOfDataURL, [c.queryEscape(datasetName)])
      case GetStyleDetails(styleName) => Sprintf(StyleDetailsURL, [c.queryEscape(styleName)])
      case GetMapStyle => MapStyleURL
      case GetPlaceDetail(placeId) => Sprintf(PlaceDetailURL, [placeId])
      case GetNearBySearch(n) =>
        Sprintf(NearBySearchURL,
          [n.layers, n.location, n.types, n.radius, n.strictbounds, n.withCentroid, n.limit])
      case GetTextSearch(t) =>
        Sprintf(TextSearchURL, [c.queryEscape(t.input), t.location, t.radius, t.types, t.size])
      case GetSnapToRoad(points, enhancePath) =>
        Sprintf(SnapToRoadURL, [c.encodeQuery([("points", points), ("enhancePath", enhancePath)])])
      case GetNearestRoads(points, radius) => Sprintf(NearestRoadsURL, [points, radius]);
    url
  }

  /** The HTTP method of an operation. */
  function Verb(op: Operation): string {
    if op.GetDirections? then "POST" else "GET"
  }

  /** What an operation does up to the dispatcher call. */
  function PlanCall(o: OlaMap, op: Operation, c: Codec): (p: Plan)
    ensures p.Dispatch? <==> "" !in RequiredParams(op) && o.token != ""
    ensures "" in RequiredParams(op) ==> p == Reject(ParamGuards(op)[0].failure)
    ensures "" !in RequiredParams(op) && o.token == "" ==> p == Reject(InvalidOAuthToken)
    ensures p.Dispatch? ==>
      p.call == Call(Verb(op), EndpointUrl(op, c), o.requestId, o.token)
  {
    OperationFailure(o, op);
    match FirstFailure(OperationGuards(o, op))
    case Some(message) => Reject(message)
    case None => Dispatch(Call(Verb(op), EndpointUrl(op, c), o.requestId, o.token))
  }

  /** All checks of a dispatched operation, in the order they are made. */
  function OperationGuards(o: OlaMap, op: Operation): seq<Guard<string>> {
    ParamGuards(op) + [TokenGuard(o)]
  }

  /** Which check of an operation fails first. */
  lemma OperationFailure(o: OlaMap, op: Operation)
    ensures FirstFailure(OperationGuards(o, op)).None? <==> "" !in RequiredParams(op) && o.token != ""
    ensures "" in RequiredParams(op) ==>
      FirstFailure(OperationGuards(o, op)) == Some(ParamGuards(op)[0].failure)
    ensures "" !in RequiredParams(op) && o.token == "" ==>
      FirstFailure(OperationGuards(o, op)) == Some(InvalidOAuthToken)
  {
    var gs := OperationGuards(o, op);
    if "" in RequiredParams(op) {
      FirstFailurePrefix(ParamGuards(op), [TokenGuard(o)]);
      assert FirstFailsAt(ParamGuards(op), 0);
      FirstFailureAt(ParamGuards(op), 0);
    } else if o.token == "" {
      assert FirstFailsAt(gs, |gs| - 1);
      FirstFailureAt(gs, |gs| - 1);
    } else {
      assert AllPass(gs);
    }
  }

  /** A whole operation with dispatcher `send`, which yields the decoded
      response or `None` for an error. */
  function Run<R>(o: OlaMap, op: Operation, c: Codec, send: Call -> Option<R>): (r: Result<R>)
    ensures PlanCall(o, op, c).Reject? ==> r == Err(PlanCall(o, op, c).message)
    ensures PlanCall(o, op, c).Dispatch? ==>
      var call := PlanCall(o, op, c).call;
      (r.Ok? <==> send(call).Some?) &&
      (r.Ok? ==> r.value == send(call).value) &&
      (r.Err? ==> r.message == SendFailed)
  {
    match PlanCall(o, op, c)
    case Reject(message) => Err(message)
    case Dispatch(call) =>
      match send(call)
      case Some(response) => Ok(response)
      case None => Err(SendFailed)
  }

  /** An operation that fails its checks never consults the dispatcher: any
      two dispatchers, a missing one included, give the same result. */
  lemma RejectIgnoresDispatcher<R>(o: OlaMap, op: Operation, c: Codec,
                                   send1: Call -> Option<R>, send2: Call -> Option<R>)
    requires "" in RequiredParams(op) || o.token == ""
    ensures Run(o, op, c, send1) == Run(o, op, c, send2)
    ensures Run(o, op, c, send1).Err?
  {
  }

  /** Missing parameters are reported before the token is looked at. */
  lemma MissingParamsBeforeToken(o1: OlaMap, o2: OlaMap, op: Operation, c: Codec)
    requires "" in RequiredParams(op)
    ensures PlanCall(o1, op, c) == PlanCall(o2, op, c)
  {
  }

  // ---- static map images (sent directly over HTTP, not through the dispatcher) ----

  /** The center-image checks, in the order they are made. */
  function CenterGuards(o: OlaMap, p: MapImageCenter, c: Codec): seq<Guard<string>> {
    CenterParamGuards(p, c) + [TokenGuard(o)]
  }

  /** The center-image parameter checks. */
  function CenterParamGuards(p: MapImageCenter, c: Codec): seq<Guard<string>> {
    [ Guard(!(p.stylename == "" || p.longitude == "" || p.latitude == "" || p.zoomlevel == ""
              || p.imagewidth == "" || p.imageheight == "" || p.imageformat == ""),
            MissingCenterParams),
      Guard(c.parsesFloat(p.longitude), InvalidLongitude),
      Guard(c.parsesFloat(p.latitude), InvalidLatitude),
      Guard(c.parsesInt(p.zoomlevel), InvalidZoomLevel),
      Guard(c.parsesInt(p.imagewidth), InvalidImageWidth),
      Guard(c.parsesInt(p.imageheight), InvalidImageHeight) ]
  }

  /** The bounded-image checks, in the order they are made. */
  function BoundedGuards(o: OlaMap, p: MapImageBounded, c: Codec): seq<Guard<string>> {
    BoundedParamGuards(p, c) + [TokenGuard(o)]
  }

  /** The bounded-image parameter checks. */
  function BoundedParamGuards(p: MapImageBounded, c: Codec): seq<Guard<string>> {
    [ Guard(!(p.stylename == "" || p.minxstr == "" || p.minystr == "" || p.maxxstr == ""
              || p.maxystr == "" || p.imagewidth == "" || p.imageheight == "" || p.imageformat == ""),
            MissingBoundedParams),
      Guard(c.parsesFloat(p.minxstr), InvalidMinX),
      Guard(c.parsesFloat(p.minystr), InvalidMinY),
      Guard(c.parsesFloat(p.maxxstr), InvalidMaxX),
      Guard(c.parsesFloat(p.maxystr), InvalidMaxY),
      Guard(c.parsesInt(p.imagewidth), InvalidImageWidth),
      Guard(c.parsesInt(p.imageheight), InvalidImageHeight) ]
  }

  /** The auto-image checks, in the order they are made; `Path` is required. */
  function AutoGuards(o: OlaMap, p: MapImage, c: Codec): seq<Guard<string>> {
    AutoParamGuards(p, c) + [TokenGuard(o)]
  }

  /** The auto-image parameter checks. */
  function AutoParamGuards(p: MapImage, c: Codec): seq<Guard<string>> {
    [ Guard(!(p.stylename == "" || p.imagewidth == "" || p.imageheight == ""
              || p.imageformat == "" || p.path == ""),
            MissingAutoParams),
      Guard(c.parsesInt(p.imagewidth), InvalidImageWidth),
      Guard(c.parsesInt(p.imageheight), InvalidImageHeight) ]
  }

  /** `GetStaticMapImageCenter`; `correlationId` is the fresh UUID it sends
      as `X-Correlation-Id` and `send` the HTTP exchange. The request sent,
      if any, is returned beside the result. */
  method GetStaticMapImageCenter<R>(o: OlaMap, p: MapImageCenter, c: Codec, correlationId: string,
                                    send: ImageRequest -> Transport<R>)
    returns (sent: Option<ImageRequest>, r: Result<R>)
    ensures sent.None? <==> !AllPass(CenterGuards(o, p, c))
    ensures sent.None? ==> r.Err? && Some(r.message) == FirstFailure(CenterGuards(o, p, c))
    ensures sent.Some? ==> r == ImageResult(SendFailed, ExternalRequestFailed, send(sent.value))
    ensures sent.Some? ==> o.token != "" && sent.value == ImageRequest(
      WithImageQuery(
        Sprintf(StaticMapImageCenterURL,
          [c.queryEscape(p.stylename), c.formatFloat(p.longitude), c.formatFloat(p.latitude),
           c.formatInt(p.zoomlevel), c.formatInt(p.imagewidth), c.formatInt(p.imageheight),
           p.imageformat]),
        p.markers, p.path, c),
      [("X-Request-Id", o.requestId), ("Authorization", o.token), ("X-Correlation-Id", correlationId)])
  {
    var failure := FirstFailure(CenterGuards(o, p, c));
    if failure.Some? {
      return None, Err(failure.value);
    }
    assert CenterGuards(o, p, c)[6].ok;
    assert o.token != "";
    var apiUrl := Sprintf(StaticMapImageCenterURL,
      [c.queryEscape(p.stylename), c.formatFloat(p.longitude), c.formatFloat(p.latitude),
       c.formatInt(p.zoomlevel), c.formatInt(p.imagewidth), c.formatInt(p.imageheight),
       p.imageformat]);
    apiUrl := AddImageQuery(apiUrl, p.markers, p.path, c);
    var headers := [("X-Request-Id", o.requestId)];
    if o.token != "" {
      headers := headers + [("Authorization", o.token)];
    }
    headers := headers + [("X-Correlation-Id", correlationId)];
    assert headers == [("X-Request-Id", o.requestId), ("Authorization", o.token), ("X-Correlation-Id", correlationId)];
    var request := ImageRequest(apiUrl, headers);
    sent := Some(request);
    r := ImageResult(SendFailed, ExternalRequestFailed, send(request));
  }

  /** `GetStaticMapImageBounded`: the session's request id is sent both as
      `X-Request-Id` and as `X-Correlation-Id`. */
  method GetStaticMapImageBounded<R>(o: OlaMap, p: MapImageBounded, c: Codec,
                                     send: ImageRequest -> Transport<R>)
    returns (sent: Option<ImageRequest>, r: Result<R>)
    ensures sent.None? <==> !AllPass(BoundedGuards(o, p, c))
    ensures sent.None? ==> r.Err? && Some(r.message) == FirstFailure(BoundedGuards(o, p, c))
    ensures sent.Some? ==> r == ImageResult(SendFailed, ExternalRequestFailed, send(sent.value))
    ensures sent.Some? ==> o.token != "" && sent.value == ImageRequest(
      WithImageQuery(
        Sprintf(StaticMapImageBoundedURL,
          [c.queryEscape(p.stylename), c.formatFloat(p.minxstr), c.formatFloat(p.minystr),
           c.formatFloat(p.maxxstr), c.formatFloat(p.maxystr),
           c.formatInt(p.imagewidth), c.formatInt(p.imageheight), p.imageformat]),
        p.markers, p.path, c),
      [("X-Request-Id", o.requestId), ("X-Correlation-Id", o.requestId), ("Authorization", o.token)])
  {
    var failure := FirstFailure(BoundedGuards(o, p, c));
    if failure.Some? {
      return None, Err(failure.value);
    }
    assert BoundedGuards(o, p, c)[7].ok;
    var apiUrl := Sprintf(StaticMapImageBoundedURL,
      [c.queryEscape(p.stylename), c.formatFloat(p.minxstr), c.formatFloat(p.minystr),
       c.formatFloat(p.maxxstr), c.formatFloat(p.maxystr),
       c.formatInt(p.imagewidth), c.formatInt(p.imageheight), p.imageformat]);
    apiUrl := AddImageQuery(apiUrl, p.markers, p.path, c);
    var headers := [("X-Request-Id", o.requestId), ("X-Correlation-Id", o.requestId)];
    if o.token != "" {
      headers := headers + [("Authorization", o.token)];
    }
    var request := ImageRequest(apiUrl, headers);
    sent := Some(request);
    r := ImageResult(SendFailed, ExternalRequestFailed, send(request));
  }

  /** `StaticMapImage`: only `Authorization` is sent, and since `Path` is
      required the URL always carries a query. */
  method StaticMapImage<R>(o: OlaMap, p: MapImage, c: Codec, send: ImageRequest -> Transport<R>)
    returns (sent: Option<ImageRequest>, r: Result<R>)
    ensures sent.None? <==> !AllPass(AutoGuards(o, p, c))
    ensures sent.None? ==> r.Err? && Some(r.message) == FirstFailure(AutoGuards(o, p, c))
    ensures sent.Some? ==> r == ImageResult(CreateRequestFailed, SendRequestFailed, send(sent.value))
    ensures sent.Some? ==> o.token != "" && sent.value == ImageRequest(
      Sprintf(StaticMapImageURL,
        [c.queryEscape(p.stylename), c.formatInt(p.imagewidth), c.formatInt(p.imageheight),
         p.imageformat])
        + "?" + c.encodeQuery(ImageQuery(p.markers, p.path)),
      [("Authorization", o.token)])
  {
    var failure := FirstFailure(AutoGuards(o, p, c));
    if failure.Some? {
      return None, Err(failure.value);
    }
    assert AutoGuards(o, p, c)[0].ok && AutoGuards(o, p, c)[3].ok;
    var apiUrl := Sprintf(StaticMapImageURL,
      [c.queryEscape(p.stylename), c.formatInt(p.imagewidth), c.formatInt(p.imageheight),
       p.imageformat]);
    apiUrl := AddImageQuery(apiUrl, p.markers, p.path, c);
    var headers := [];
    if o.token != "" {
      headers := headers + [("Authorization", o.token)];
    }
    var request := ImageRequest(apiUrl, headers);
    sent := Some(request);
    r := ImageResult(CreateRequestFailed, SendRequestFailed, send(request));
  }

  /** The library's result for an image request once sent: the response,
      whatever its status, or the operation's two transport messages. */
  function ImageResult<R>(unbuildable: string, unreachable: string, t: Transport<R>): (r: Result<R>)
    ensures r.Ok? <==> t.Delivered?
    ensures r.Ok? ==> r.value == t.response
    ensures t.Unbuildable? ==> r == Err(unbuildable)
    ensures t.Unreachable? ==> r == Err(unreachable)
  {
    match t
    case Unbuildable => Err(unbuildable)
    case Unreachable => Err(unreachable)
    case Delivered(response) => Ok(response)
  }

  /** The first failing check of the center variant is reported, whatever
      the later fields hold: an invalid zoom level hides an invalid height,
      and any invalid number hides a missing token. */
  lemma CenterZoomBeforeHeightAndToken(o: OlaMap, p: MapImageCenter, c: Codec)
    requires p.stylename != "" && p.longitude != "" && p.latitude != "" && p.zoomlevel != ""
    requires p.imagewidth != "" && p.imageheight != "" && p.imageformat != ""
    requires c.parsesFloat(p.longitude) && c.parsesFloat(p.latitude) && !c.parsesInt(p.zoomlevel)
    ensures FirstFailure(CenterGuards(o, p, c)) == Some(InvalidZoomLevel)
  {
    FirstFailureAt(CenterGuards(o, p, c), 3);
  }

  /** The center variant checks the token last: while any parameter check
      fails, the result does not depend on the session at all. */
  lemma CenterTokenCheckedLast(o1: OlaMap, o2: OlaMap, p: MapImageCenter, c: Codec)
    requires !AllPass(CenterParamGuards(p, c))
    ensures FirstFailure(CenterGuards(o1, p, c)) == FirstFailure(CenterGuards(o2, p, c))
  {
    FirstFailurePrefix(CenterParamGuards(p, c), [TokenGuard(o1)]);
    FirstFailurePrefix(CenterParamGuards(p, c), [TokenGuard(o2)]);
  }

  /** The bounded variant checks the token last. */
  lemma BoundedTokenCheckedLast(o1: OlaMap, o2: OlaMap, p: MapImageBounded, c: Codec)
    requires !AllPass(BoundedParamGuards(p, c))
    ensures FirstFailure(BoundedGuards(o1, p, c)) == FirstFailure(BoundedGuards(o2, p, c))
  {
    FirstFailurePrefix(BoundedParamGuards(p, c), [TokenGuard(o1)]);
    FirstFailurePrefix(BoundedParamGuards(p, c), [TokenGuard(o2)]);
  }

  /** The auto variant checks the token last. */
  lemma AutoTokenCheckedLast(o1: OlaMap, o2: OlaMap, p: MapImage, c: Codec)
    requires !AllPass(AutoParamGuards(p, c))
    ensures FirstFailure(AutoGuards(o1, p, c)) == FirstFailure(AutoGuards(o2, p, c))
  {
    FirstFailurePrefix(AutoParamGuards(p, c), [TokenGuard(o1)]);
    FirstFailurePrefix(AutoParamGuards(p, c), [TokenGuard(o2)]);
  }
}
