/** The HTTP facade's JSON handlers (internal/resources/handlers.go): each
    reads its query parameters and the `Authorization` header, answers 400 or
    401 itself, or forwards one request upstream. Their rules differ from the
    library's: two handlers reject only when every parameter is empty, two
    never look at the token, and one fills in a default radius. */
module Facade {
  import opened Text
  import opened Guards
  import opened Encoding
  import opened Endpoints
  import opened Library

  /** A query string or header set: each key with its values in order. */
  type Values = map<string, seq<string>>

  /** `Values.Get` / `Header.Get`: the first value of `key`, or "". */
  function Get(v: Values, key: string): (r: string)
    ensures r != "" ==> key in v && |v[key]| > 0 && r == v[key][0]
    ensures key in v && |v[key]| > 0 ==> r == v[key][0]
  {
    if key in v && |v[key]| > 0 then v[key][0] else ""
  }

  /** `Values[key]`: every value of `key`. */
  function GetAll(v: Values, key: string): (r: seq<string>)
    ensures key !in v ==> r == []
    ensures key in v ==> r == v[key]
  {
    if key in v then v[key] else []
  }

  datatype JsonHandler =
    | GetDirectionsHandler | PlaceAutoCompleteHandler | GeoCodeHandler | ReverseGeocodeHandler
    | GetPbfFileHandler | GetDistanceMatrixHandler | ArrayOfDataHandler | GetStyleDetailsHandler
    | GetMapStyleHandler | GetPlaceDetailHandler | GetNearBySearchHandler | GetTextSearchHandler
    | GetSnapToRoadHandler | GetNearestRoadsHandler

  /** The text of a 500 reply when the upstream call fails: fixed, or the error's own text. */
  datatype FailureText = Fixed(text: string) | ErrorText

  /** A handler's own reply, or the upstream request it makes. */
  datatype Decision = Reply(status: int, message: string) | Forward(call: Call, failure: FailureText)

  const StatusBadRequest := 400
  const StatusUnauthorized := 401
  const StatusInternalServerError := 500

  // The replies the handlers write themselves, as they word them.
  const AutoCompleteMissingInput := "Missing 'input' query parameter"
  const MissingQueryParams := "Missing required query parameters"
  const MissingLatlngParameter := "Missing required query parameter: latlng"
  const MissingTileParams := "Missing required query parameters: dataset_name, z, x, y"
  const MissingOriginsOrDestinations := "Missing required query parameters: 'origins' and/or 'destinations'"
  const MissingDatasetNameParameter := "Missing required query parameter: 'dataset_name'"
  const MissingStyleNameParameter := "Missing required query parameter: 'style_name'"
  const MissingPlaceIdParameter := "Missing place_id query parameter"
  const TextSearchMissingInput := "Missing input query parameter"
  const MissingPointsParameter := "Missing points query parameter"
  const MissingOAuthToken := "Missing OAuth token"
  const MissingAuthorizationHeader := "Missing Authorization header"
  const OlaMapsRequestFailed := "Failed to send request to Olamaps API"
  const ApiRequestFailed := "Failed to send request to API"

  // ---- the rules, stated as a table ----

  /** The query keys a handler insists on. */
  function RequiredKeys(h: JsonHandler): seq<string> {
    match h
    case GetDirectionsHandler => ["origin", "destination"]
    case PlaceAutoCompleteHandler => ["input"]
    case GeoCodeHandler => ["address", "bounds", "language"]
    case ReverseGeocodeHandler => ["latlng"]
    case GetPbfFileHandler => ["dataset_name", "z", "x", "y"]
    case GetDistanceMatrixHandler => ["origins", "destinations"]
    case ArrayOfDataHandler => ["dataset_name"]
    case GetStyleDetailsHandler => ["style_name"]
    case GetMapStyleHandler => []
    case GetPlaceDetailHandler => ["place_id"]
    case GetNearBySearchHandler => ["layers", "location"]
    case GetTextSearchHandler => ["input"]
    case GetSnapToRoadHandler => ["points"]
    case GetNearestRoadsHandler => ["points"]
  }

  /** The handlers that reject only when all their keys are empty. */
  predicate RejectsOnlyWhenAllEmpty(h: JsonHandler) {
    h.GeoCodeHandler? || h.GetPbfFileHandler?
  }

  /** The 400 policy: any required value empty, or for the two lenient
      handlers every required value empty. */
  predicate ParamsRejected(h: JsonHandler, q: Values) {
    if RejectsOnlyWhenAllEmpty(h) then forall k :: k in RequiredKeys(h) ==> Get(q, k) == ""
    else exists k :: k in RequiredKeys(h) && Get(q, k) == ""
  }

  /** The handlers that answer 401 to an empty `Authorization` header. */
  predicate ChecksToken(h: JsonHandler) {
    !(h.GetDistanceMatrixHandler? || h.ArrayOfDataHandler?)
  }

  /** The 401 text: one handler words it differently. */
  function UnauthorizedMessage(h: JsonHandler): string {
    if h.GetSnapToRoadHandler? then MissingAuthorizationHeader else MissingOAuthToken
  }

  function HandlerVerb(h: JsonHandler): string {
    if h.GetDirectionsHandler? then "POST" else "GET"
  }

  /** The 500 text each handler uses when the upstream call fails. */
  function FailureTextOf(h: JsonHandler): FailureText {
    match h
    case ReverseGeocodeHandler => Fixed(ApiRequestFailed)
    case GetPbfFileHandler => Fixed(ApiRequestFailed)
    case GetPlaceDetailHandler => ErrorText
    case GetNearBySearchHandler => ErrorText
    case GetTextSearchHandler => ErrorText
    case GetSnapToRoadHandler => ErrorText
    case GetNearestRoadsHandler => ErrorText
    case _ => Fixed(OlaMapsRequestFailed)
  }

  /** The 400 text each handler writes when its parameter check fails. */
  function BadRequestMessage(h: JsonHandler): string {
    match h
    case GetDirectionsHandler => MissingOriginOrDestination
    case PlaceAutoCompleteHandler => AutoCompleteMissingInput
    case GeoCodeHandler => MissingQueryParams
    case ReverseGeocodeHandler => MissingLatlngParameter
    case GetPbfFileHandler => MissingTileParams
    case GetDistanceMatrixHandler => MissingOriginsOrDestinations
    case ArrayOfDataHandler => MissingDatasetNameParameter
    case GetStyleDetailsHandler => MissingStyleNameParameter
    case GetMapStyleHandler => ""  // it has no parameter check
    case GetPlaceDetailHandler => MissingPlaceIdParameter
    case GetNearBySearchHandler => MissingQueryParams
    case GetTextSearchHandler => TextSearchMissingInput
    case GetSnapToRoadHandler => MissingPointsParameter
    case GetNearestRoadsHandler => MissingPointsParameter
  }

  // ---- the handlers' code ----

  /** The parameter check each handler makes first, as written. */
  function ParamGuards(h: JsonHandler, q: Values): seq<Guard<(int, string)>> {
    var refusal := (StatusBadRequest, BadRequestMessage(h));
    match h
    case GetDirectionsHandler =>
      [Guard(!(Get(q, "origin") == "" || Get(q, "destination") == ""), refusal)]
    case PlaceAutoCompleteHandler => [Guard(Get(q, "input") != "", refusal)]
    case GeoCodeHandler =>
      [Guard(!(Get(q, "address") == "" && Get(q, "bounds") == "" && Get(q, "language") == ""), refusal)]
    case ReverseGeocodeHandler => [Guard(Get(q, "latlng") != "", refusal)]
    case GetPbfFileHandler =>
      [Guard(!(Get(q, "dataset_name") == "" && Get(q, "z") == "" && Get(q, "x") == "" && Get(q, "y") == ""),
             refusal)]
    case GetDistanceMatrixHandler =>
      [Guard(!(Get(q, "origins") == "" || Get(q, "destinations") == ""), refusal)]
    case ArrayOfDataHandler => [Guard(Get(q, "dataset_name") != "", refusal)]
    case GetStyleDetailsHandler => [Guard(Get(q, "style_name") != "", refusal)]
    case GetMapStyleHandler => []
    case GetPlaceDetailHandler => [Guard(Get(q, "place_id") != "", refusal)]
    case GetNearBySearchHandler =>
      [Guard(!(Get(q, "layers") == "" || Get(q, "location") == ""), refusal)]
    case GetTextSearchHandler => [Guard(Get(q, "input") != "", refusal)]
    case GetSnapToRoadHandler => [Guard(Get(q, "points") != "", refusal)]
    case GetNearestRoadsHandler => [Guard(Get(q, "points") != "", refusal)]
  }

  /** The written checks implement the 400 policy exactly. */
  lemma ParamGuardsFollowPolicy(h: JsonHandler, q: Values)
    ensures |ParamGuards(h, q)| <= 1
    ensures AllPass(ParamGuards(h, q)) <==> !ParamsRejected(h, q)
  {
    if RejectsOnlyWhenAllEmpty(h) {
      LenientGuardsFollowPolicy(h, q);
    } else if h.GetDirectionsHandler? || h.PlaceAutoCompleteHandler? || h.ReverseGeocodeHandler?
           || h.GetDistanceMatrixHandler? || h.ArrayOfDataHandler? || h.GetStyleDetailsHandler? {
      StrictGuardsFollowPolicy(h, q);
    } else {
      LaterGuardsFollowPolicy(h, q);
    }
  }

  /** GeoCode and the tile handler fail their check only when every key is empty. */
  lemma LenientGuardsFollowPolicy(h: JsonHandler, q: Values)
    requires RejectsOnlyWhenAllEmpty(h)
    ensures |ParamGuards(h, q)| == 1
    ensures AllPass(ParamGuards(h, q)) <==> !ParamsRejected(h, q)
  {
    var gs := ParamGuards(h, q);
    assert AllPass(gs) <==> gs[0].ok;
  }

  /** The first six strict handlers fail their check when some key is empty. */
  lemma StrictGuardsFollowPolicy(h: JsonHandler, q: Values)
    requires h.GetDirectionsHandler? || h.PlaceAutoCompleteHandler? || h.ReverseGeocodeHandler?
          || h.GetDistanceMatrixHandler? || h.ArrayOfDataHandler? || h.GetStyleDetailsHandler?
    ensures |ParamGuards(h, q)| == 1
    ensures AllPass(ParamGuards(h, q)) <==> !ParamsRejected(h, q)
  {
    var gs := ParamGuards(h, q);
    assert AllPass(gs) <==> gs[0].ok;
    if !gs[0].ok {
      EmptyKeyNamed(h, q);
    }
  }

  /** The remaining handlers: map style has no check, the others a strict one. */
  lemma LaterGuardsFollowPolicy(h: JsonHandler, q: Values)
    requires h.GetMapStyleHandler? || h.GetPlaceDetailHandler? || h.GetNearBySearchHandler?
          || h.GetTextSearchHandler? || h.GetSnapToRoadHandler? || h.GetNearestRoadsHandler?
    ensures |ParamGuards(h, q)| <= 1
    ensures AllPass(ParamGuards(h, q)) <==> !ParamsRejected(h, q)
  {
    var gs := ParamGuards(h, q);
    assert AllPass(gs) <==> gs == [] || gs[0].ok;
    if gs != [] && !gs[0].ok {
      EmptyKeyNamed(h, q);
    }
  }

  /** A failing strict check has an empty required key to show for it. */
  lemma EmptyKeyNamed(h: JsonHandler, q: Values)
    requires !RejectsOnlyWhenAllEmpty(h)
    requires ParamGuards(h, q) != [] && !ParamGuards(h, q)[0].ok
    ensures exists k :: k in RequiredKeys(h) && Get(q, k) == ""
  {
    var keys := RequiredKeys(h);
    var i :| 0 <= i < |keys| && Get(q, keys[i]) == "";
    assert keys[i] in keys;
  }

  /** The authorization check that follows, for the handlers that make one. */
  function AuthGuards(h: JsonHandler, hdr: Values): seq<Guard<(int, string)>> {
    if ChecksToken(h) then
      [Guard(Get(hdr, "Authorization") != "", (StatusUnauthorized, UnauthorizedMessage(h)))]
    else []
  }

  /** The radius sent upstream by the nearest-roads handler. */
  const DefaultRadius := "500"

  function RadiusOrDefault(radius: string): (r: string)
    ensures r != ""
    ensures radius != "" ==> r == radius
    ensures radius == "" ==> r == DefaultRadius
  {
    if radius == "" then DefaultRadius else radius
  }

  /** The upstream URL each handler builds; `pbfFileUrl` is the tile
      template, which is not among the endpoint definitions. */
  function UpstreamUrl(h: JsonHandler, q: Values, c: Codec, pbfFileUrl: Format): string
    requires pbfFileUrl.Arity() == 4
  {
    match h
    case GetDirectionsHandler => Sprintf(DirectionsURL, [Get(q, "origin"), Get(q, "destination")])
    case PlaceAutoCompleteHandler => Sprintf(PlaceAutoCompleteURL, [Get(q, "input")])
    case GeoCodeHandler =>
      Sprintf(GeoCodeURL, [Get(q, "address"), Get(q, "bounds"), Get(q, "language")])
    case ReverseGeocodeHandler => Sprintf(ReverseGeocodeURL, [c.queryEscape(Get(q, "latlng"))])
    case GetPbfFileHandler =>
      Sprintf(pbfFileUrl, [c.pathEscape(Get(q, "dataset_name")), c.pathEscape(Get(q, "z")),
                           c.pathEscape(Get(q, "x")), c.pathEscape(Get(q, "y"))])
    case GetDistanceMatrixHandler =>
      Sprintf(DistanceMatrixURL, [c.queryEscape(Get(q, "origins")), c.queryEscape(Get(q, "destinations"))])
    case ArrayOfDataHandler => Sprintf(ArrayOfDataURL, [c.queryEscape(Get(q, "dataset_name"))])
    case GetStyleDetailsHandler => Sprintf(StyleDetailsURL, [c.queryEscape(Get(q, "style_name"))])
    case GetMapStyleHandler => MapStyleURL
    case GetPlaceDetailHandler => Sprintf(PlaceDetailURL, [Get(q, "place_id")])
    case GetNearBySearchHandler =>
      Sprintf(NearBySearchURL,
        [Get(q, "layers"), Get(q, "location"), Get(q, "types"), Get(q, "radius"),
         Get(q, "strictbounds"), Get(q, "withCentroid"), Get(q, "limit")])
    case GetTextSearchHandler =>
      Sprintf(TextSearchURL,
        [c.queryEscape(Get(q, "input")), Get(q, "location"), Get(q, "radius"), Get(q, "types"), Get(q, "size")])
    case GetSnapToRoadHandler =>
      Sprintf(SnapToRoadURL, [c.encodeQuery([("points", Get(q, "points")), ("enhancePath", Get(q, "enhancePath"))])])
    case GetNearestRoadsHandler =>
      Sprintf(NearestRoadsURL, [Get(q, "points"), RadiusOrDefault(Get(q, "radius"))])
  }

  /** What a JSON handler does with query `q` and headers `hdr`, up to the
      upstream call; `requestId` is the fresh UUID it generates. */
  function Decide(h: JsonHandler, q: Values, hdr: Values, c: Codec, pbfFileUrl: Format,
                  requestId: string): (d: Decision)
    requires pbfFileUrl.Arity() == 4
    ensures d.Reply? ==> d.status == StatusBadRequest || d.status == StatusUnauthorized
    ensures d.Reply? && d.status == StatusBadRequest <==> ParamsRejected(h, q)
    ensures d.Reply? && d.status == StatusUnauthorized <==>
      !ParamsRejected(h, q) && ChecksToken(h) && Get(hdr, "Authorization") == ""
    ensures d.Reply? && d.status == StatusBadRequest ==> d.message == BadRequestMessage(h)
    ensures d.Reply? && d.status == StatusUnauthorized ==> d.message == UnauthorizedMessage(h)
    ensures d.Forward? ==>
      d.call == Call(HandlerVerb(h), UpstreamUrl(h, q, c, pbfFileUrl), requestId, Get(hdr, "Authorization"))
      && d.failure == FailureTextOf(h)
  {
    var params, auth := ParamGuards(h, q), AuthGuards(h, hdr);
    ParamGuardsFollowPolicy(h, q);
    DecideOrder(params, auth);
    match FirstFailure(params + auth)
    case Some(refusal) => Reply(refusal.0, refusal.1)
    case None =>
      Forward(Call(HandlerVerb(h), UpstreamUrl(h, q, c, pbfFileUrl), requestId, Get(hdr, "Authorization")),
              FailureTextOf(h))
  }

  /** With at most one check on each side, the first failing one is found in order. */
  lemma DecideOrder<E>(params: seq<Guard<E>>, auth: seq<Guard<E>>)
    requires |params| <= 1 && |auth| <= 1
    ensures !AllPass(params) ==> FirstFailure(params + auth) == Some(params[0].failure)
    ensures AllPass(params) && !AllPass(auth) ==> FirstFailure(params + auth) == Some(auth[0].failure)
    ensures AllPass(params) && AllPass(auth) ==> FirstFailure(params + auth) == None
  {
    var gs := params + auth;
    if !AllPass(params) {
      assert FirstFailsAt(gs, 0);
      FirstFailureAt(gs, 0);
    } else if !AllPass(auth) {
      assert FirstFailsAt(gs, |params|);
      FirstFailureAt(gs, |params|);
    } else {
      assert AllPass(gs);
    }
  }

  /** The status and text of the 500 reply to a failed upstream call. */
  function UpstreamFailure(f: FailureText, errorText: string): (r: (int, string))
    ensures r.0 == StatusInternalServerError
    ensures f.Fixed? ==> r.1 == f.text
    ensures f.ErrorText? ==> r.1 == errorText
  {
    match f
    case Fixed(text) => (StatusInternalServerError, text)
    case ErrorText => (StatusInternalServerError, errorText)
  }

  // ---- properties of particular handlers ----

  /** Directions rejects a missing origin or destination before reading
      `Authorization`, whatever the headers hold. */
  lemma DirectionsBadRequestFirst(q: Values, hdr: Values, c: Codec, pbfFileUrl: Format, requestId: string)
    requires pbfFileUrl.Arity() == 4
    requires Get(q, "origin") == "" || Get(q, "destination") == ""
    ensures Decide(GetDirectionsHandler, q, hdr, c, pbfFileUrl, requestId) ==
      Reply(StatusBadRequest, MissingOriginOrDestination)
  {
    ParamGuardsFollowPolicy(GetDirectionsHandler, q);
    DecideOrder(ParamGuards(GetDirectionsHandler, q), AuthGuards(GetDirectionsHandler, hdr));
  }

  /** GeoCode rejects only when address, bounds and language are all empty. */
  lemma GeoCodeAllEmptyRule(q: Values, hdr: Values, c: Codec, pbfFileUrl: Format, requestId: string)
    requires pbfFileUrl.Arity() == 4
    ensures Decide(GeoCodeHandler, q, hdr, c, pbfFileUrl, requestId) == Reply(StatusBadRequest, MissingQueryParams)
      <==> Get(q, "address") == "" && Get(q, "bounds") == "" && Get(q, "language") == ""
  {
    ParamGuardsFollowPolicy(GeoCodeHandler, q);
    DecideOrder(ParamGuards(GeoCodeHandler, q), AuthGuards(GeoCodeHandler, hdr));
  }

  /** The tile handler rejects only when dataset_name, z, x and y are all empty. */
  lemma PbfFileAllEmptyRule(q: Values, hdr: Values, c: Codec, pbfFileUrl: Format, requestId: string)
    requires pbfFileUrl.Arity() == 4
    ensures Decide(GetPbfFileHandler, q, hdr, c, pbfFileUrl, requestId).Reply? &&
            Decide(GetPbfFileHandler, q, hdr, c, pbfFileUrl, requestId).status == StatusBadRequest
      <==> Get(q, "dataset_name") == "" && Get(q, "z") == "" && Get(q, "x") == "" && Get(q, "y") == ""
  {
    var keys := RequiredKeys(GetPbfFileHandler);
    assert keys[0] == "dataset_name" && keys[1] == "z" && keys[2] == "x" && keys[3] == "y";
  }

  /** Distance matrix and array-of-data never answer 401: with no
      `Authorization` header they forward an empty token. */
  lemma NoTokenCheckForwardsEmpty(h: JsonHandler, q: Values, hdr: Values, c: Codec,
                                  pbfFileUrl: Format, requestId: string)
    requires pbfFileUrl.Arity() == 4
    requires h == GetDistanceMatrixHandler || h == ArrayOfDataHandler
    requires !ParamsRejected(h, q) && "Authorization" !in hdr
    ensures Decide(h, q, hdr, c, pbfFileUrl, requestId).Forward?
    ensures Decide(h, q, hdr, c, pbfFileUrl, requestId).call.oauthToken == ""
  {
  }

  /** The map-style handler has no parameters: it answers exactly when the
      header is empty, and then with 401. */
  lemma MapStyleOnlyAuth(q: Values, hdr: Values, c: Codec, pbfFileUrl: Format, requestId: string)
    requires pbfFileUrl.Arity() == 4
    ensures Decide(GetMapStyleHandler, q, hdr, c, pbfFileUrl, requestId).Reply?
      <==> Get(hdr, "Authorization") == ""
    ensures Decide(GetMapStyleHandler, q, hdr, c, pbfFileUrl, requestId).Reply? ==>
      Decide(GetMapStyleHandler, q, hdr, c, pbfFileUrl, requestId) == Reply(StatusUnauthorized, MissingOAuthToken)
  {
  }

  /** The nearest-roads handler sends the points and the radius, or the
      default radius when none is given. */
  lemma NearestRoadsUpstreamUrl(q: Values, c: Codec, pbfFileUrl: Format)
    requires pbfFileUrl.Arity() == 4
    ensures UpstreamUrl(GetNearestRoadsHandler, q, c, pbfFileUrl) ==
      Host + NearestRoadsPath + "?points=" + Get(q, "points") + "&radius=" + RadiusOrDefault(Get(q, "radius"))
  {
    SprintfTwo(Host + NearestRoadsPath + "?points=", "&radius=", "", Get(q, "points"),
               RadiusOrDefault(Get(q, "radius")));
  }

  /** Nearest roads sends radius 500 when none is given. */
  lemma NearestRoadsDefaultRadius(q: Values, hdr: Values, c: Codec, pbfFileUrl: Format, requestId: string)
    requires pbfFileUrl.Arity() == 4
    requires Get(q, "points") != "" && Get(q, "radius") == "" && Get(hdr, "Authorization") != ""
    ensures Decide(GetNearestRoadsHandler, q, hdr, c, pbfFileUrl, requestId).Forward?
    ensures Decide(GetNearestRoadsHandler, q, hdr, c, pbfFileUrl, requestId).call.url ==
      Host + NearestRoadsPath + "?points=" + Get(q, "points") + "&radius=" + DefaultRadius
  {
    var h := GetNearestRoadsHandler;
    assert !ParamsRejected(h, q) by {
      assert RequiredKeys(h) == ["points"];
    }
    NearestRoadsUpstreamUrl(q, c, pbfFileUrl);
  }

  /** Unlike the library, which requires both origin and destination and
      always checks the token, the distance-matrix handler forwards a request
      without credentials. */
  lemma DistanceMatrixDiffersFromLibrary(q: Values, c: Codec, pbfFileUrl: Format, requestId: string)
    requires pbfFileUrl.Arity() == 4
    requires Get(q, "origins") != "" && Get(q, "destinations") != ""
    ensures Decide(GetDistanceMatrixHandler, q, map[], c, pbfFileUrl, requestId).Forward?
    ensures PlanCall(OlaMap("", requestId), GetDistanceMatrix(Get(q, "origins"), Get(q, "destinations")), c)
      == Reject(InvalidOAuthToken)
  {
    var h := GetDistanceMatrixHandler;
    assert !ParamsRejected(h, q) by {
      assert RequiredKeys(h) == ["origins", "destinations"];
    }
    var op := GetDistanceMatrix(Get(q, "origins"), Get(q, "destinations"));
    assert RequiredParams(op) == [Get(q, "origins"), Get(q, "destinations")];
  }
}
