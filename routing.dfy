/** The library's operations dispatched to the mock (the pairing the
    handler tests use): every provider URL holds the mock key of its own
    endpoint, so the mock always answers, and the operation succeeds exactly
    when its checks pass. */
module MockRouting {
  import opened Text
  import opened Encoding
  import opened Endpoints
  import opened Library
  import opened Mock

  /** The position in `RoutedKeys` of the key belonging to each operation. */
  function KeyIndex(op: Operation): (i: nat)
    ensures i < |RoutedKeys|
  {
    match op
    case GetDirections(_, _) => 0
    case GetDistanceMatrix(_, _) => 1
    case GeoCode(_, _, _) => 2
    case ReverseGeocode(_) => 3
    case GetSnapToRoad(_, _) => 4
    case GetNearestRoads(_, _) => 5
    case ArrayOfData(_) => 6
    case PlaceAutoComplete(_) => 7
    case GetPlaceDetail(_) => 8
    case GetNearBySearch(_) => 9
    case GetTextSearch(_) => 10
    case GetMapStyle => 11
    case GetStyleDetails(_) => 12
  }

  /** A key placed between the host and the rest of a template's lead text. */
  lemma KeyAfterHost(f: Format, args: seq<string>, key: string, tail: string)
    requires |args| == f.Arity() && f.lead == Host + key + tail
    ensures Contains(Sprintf(f, args), key)
  {
    ContainsAt(key, key, 0);
    ContainsWithin(Host, key, tail, key);
    SprintfKeepsLead(f, args, key);
  }

  /** Every provider URL contains the mock key of its endpoint. */
  lemma EndpointHoldsItsKey(op: Operation, c: Codec)
    ensures Contains(EndpointUrl(op, c), RoutedKeys[KeyIndex(op)])
  {
    if op.GetDirections? || op.GetDistanceMatrix? || op.GetSnapToRoad? || op.GetNearestRoads? {
      RoutingHoldsItsKey(op, c);
    } else if op.ArrayOfData? || op.GetMapStyle? || op.GetStyleDetails? {
      TilesHoldItsKey(op, c);
    } else {
      PlacesHoldItsKey(op, c);
    }
  }

  /** The routing endpoints hold their keys. */
  lemma RoutingHoldsItsKey(op: Operation, c: Codec)
    requires op.GetDirections? || op.GetDistanceMatrix? || op.GetSnapToRoad? || op.GetNearestRoads?
    ensures Contains(EndpointUrl(op, c), RoutedKeys[KeyIndex(op)])
  {
    match op
    case GetDirections(origin, destination) =>
      KeyAfterHost(DirectionsURL, [origin, destination], MockDirectionsURL, "?origin=");
    case GetDistanceMatrix(origins, destinations) =>
      KeyAfterHost(DistanceMatrixURL, [c.queryEscape(origins), c.queryEscape(destinations)],
        MockDistanceMatrixURL, "?origins=");
    case GetSnapToRoad(points, enhancePath) =>
      KeyAfterHost(SnapToRoadURL, [c.encodeQuery([("points", points), ("enhancePath", enhancePath)])],
        MockSnapToRoadURL, "?");
    case GetNearestRoads(points, radius) =>
      KeyAfterHost(NearestRoadsURL, [points, radius], MockNearestRoadURL, "?points=");
  }

  /** The places endpoints hold their keys. */
  lemma PlacesHoldItsKey(op: Operation, c: Codec)
    requires op.GeoCode? || op.ReverseGeocode? || op.PlaceAutoComplete? || op.GetPlaceDetail?
      || op.GetNearBySearch? || op.GetTextSearch?
    ensures Contains(EndpointUrl(op, c), RoutedKeys[KeyIndex(op)])
  {
    match op
    case GeoCode(address, bounds, language) =>
      KeyAfterHost(GeoCodeURL, [address, bounds, language], MockGecodeURL, "?address=");
    case ReverseGeocode(latlng) =>
      KeyAfterHost(ReverseGeocodeURL, [c.queryEscape(latlng)], MockReverseGecodeURL, "?latlng=");
    case PlaceAutoComplete(input) =>
      KeyAfterHost(PlaceAutoCompleteURL, [input], MockAutoCompleteURL, "?input=");
    case GetPlaceDetail(placeId) =>
      KeyAfterHost(PlaceDetailURL, [placeId], MockPlaceDetailURL, "?place_id=");
    case GetNearBySearch(n) =>
      KeyAfterHost(NearBySearchURL,
        [n.layers, n.location, n.types, n.radius, n.strictbounds, n.withCentroid, n.limit],
        MockNearBySearchURL, "?layers=");
    case GetTextSearch(t) =>
      KeyAfterHost(TextSearchURL, [c.queryEscape(t.input), t.location, t.radius, t.types, t.size],
        MockTextSearchURL, "?input=");
  }

  /** The tiles endpoints hold their keys; the style-details key is the file
      name after the last directive. */
  lemma TilesHoldItsKey(op: Operation, c: Codec)
    requires op.ArrayOfData? || op.GetMapStyle? || op.GetStyleDetails?
    ensures Contains(EndpointUrl(op, c), RoutedKeys[KeyIndex(op)])
  {
    match op
    case ArrayOfData(datasetName) =>
      KeyAfterHost(ArrayOfDataURL, [c.queryEscape(datasetName)], MockArrayOfDataURL, "/");
    case GetMapStyle =>
      ContainsAt(MockMapStyleURL, MockMapStyleURL, 0);
      ContainsWithin(Host, MockMapStyleURL, "", MockMapStyleURL);
      assert Host + MockMapStyleURL + "" == EndpointUrl(op, c);
    case GetStyleDetails(styleName) =>
      assert OccursAt("/" + StyleFile, MockStyleDetailsURL, 1);
      ContainsAt("/" + StyleFile, MockStyleDetailsURL, 1);
      SprintfKeepsLast(StyleDetailsURL, [c.queryEscape(styleName)], MockStyleDetailsURL);
  }

  /** The mock finds a key in every provider URL, at the latest its own. */
  lemma EveryEndpointRouted(op: Operation, c: Codec)
    ensures FirstMatch(EndpointUrl(op, c), RoutedKeys).Some?
    ensures FirstMatch(EndpointUrl(op, c), RoutedKeys).value <= KeyIndex(op)
  {
    EndpointHoldsItsKey(op, c);
  }

  /** When no earlier key occurs in it, the URL gets its own endpoint's body. */
  lemma OwnBodyWithoutEarlierKey(op: Operation, c: Codec)
    requires forall j :: 0 <= j < KeyIndex(op) ==> !Contains(EndpointUrl(op, c), RoutedKeys[j])
    ensures FirstMatch(EndpointUrl(op, c), RoutedKeys) == Some(KeyIndex(op))
  {
    EndpointHoldsItsKey(op, c);
    FirstMatchIs(EndpointUrl(op, c), RoutedKeys, KeyIndex(op));
  }

  /** Directions is tried first, so its body is recorded whatever the arguments. */
  lemma DirectionsGetDirectionBody(origin: string, destination: string, c: Codec)
    ensures FirstMatch(EndpointUrl(GetDirections(origin, destination), c), RoutedKeys) == Some(0)
    ensures RoutedBodies[0] == DirectionResponse
  {
    OwnBodyWithoutEarlierKey(GetDirections(origin, destination), c);
  }

  /** The mock's answer as a dispatcher result: nothing decoded on success. */
  function MockReply(call: Call): (r: Option<()>)
    ensures r.Some? <==> exists j :: 0 <= j < |RoutedKeys| && Contains(call.url, RoutedKeys[j])
  {
    if FirstMatch(call.url, RoutedKeys).Some? then Some(()) else None
  }

  /** With the mock as dispatcher an operation fails only on its own checks. */
  lemma MockNeverFails(o: OlaMap, op: Operation, c: Codec)
    ensures Run(o, op, c, MockReply).Ok? <==> "" !in RequiredParams(op) && o.token != ""
  {
    EveryEndpointRouted(op, c);
  }

  /** An operation run against a mock: the mock is consulted only when the
      checks pass, and then records status 200 and the body it routes to. */
  method RunWithMock(o: OlaMap, op: Operation, c: Codec, mock: MockStruct) returns (r: Result<()>)
    modifies mock
    ensures r == Run(o, op, c, MockReply)
    ensures PlanCall(o, op, c).Reject? ==> unchanged(mock)
    ensures PlanCall(o, op, c).Dispatch? ==>
      FirstMatch(EndpointUrl(op, c), RoutedKeys).Some? && mock.statusCode == 200 &&
      mock.mockBody == Canned(RoutedBodies[FirstMatch(EndpointUrl(op, c), RoutedKeys).value])
  {
    match PlanCall(o, op, c)
    case Reject(message) =>
      r := Err(message);
    case Dispatch(call) =>
      EveryEndpointRouted(op, c);
      var err := mock.SendOlaMapRequest(call.verb, call.url, call.requestId, call.oauthToken);
      if err.Some? {
        r := Err(SendFailed);
      } else {
        r := Ok(());
      }
  }
}
